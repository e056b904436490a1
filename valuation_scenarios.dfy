/** The RwaValuation test suite replayed against the model: five validators
    registered at deployment, one admin, one outside account, and a single
    asset token id. Each scenario is a fresh deployment followed by the calls
    of one test, and its postcondition is what that test expects. */
module ValuationScenarios {
  import opened Common
  import opened Scoring
  import opened ValuationContract

  const Admin: Address := 0
  const V1: Address := 1
  const V2: Address := 2
  const V3: Address := 3
  const V4: Address := 4
  const V5: Address := 5
  const Outsider: Address := 6
  const Asset: Address := 100
  const NftId: nat := 1
  const Validators: seq<Address> := [V1, V2, V3, V4, V5]

  /** Revealing five values for the five validators in order records each
      validator's own value. */
  lemma RevealFive(values: seq<nat>)
    requires |values| == 5
    ensures ApplyReveals(map[], Validators, values)
         == map[V1 := values[0], V2 := values[1], V3 := values[2], V4 := values[3], V5 := values[4]]
  {
    var vs, xs := Validators, values;
    assert vs[..4] == [V1, V2, V3, V4] && vs[..3] == [V1, V2, V3] && vs[..2] == [V1, V2] && vs[..1] == [V1];
    assert vs[..4][..3] == vs[..3] && vs[..3][..2] == vs[..2] && vs[..2][..1] == vs[..1] && vs[..1][..0] == [];
    assert xs[..4][..3] == xs[..3] && xs[..3][..2] == xs[..2] && xs[..2][..1] == xs[..1] && xs[..1][..0] == [];
    var m0 := ApplyReveals(map[], vs[..0], xs[..0]);
    var m1 := ApplyReveals(map[], vs[..1], xs[..1]);
    var m2 := ApplyReveals(map[], vs[..2], xs[..2]);
    var m3 := ApplyReveals(map[], vs[..3], xs[..3]);
    var m4 := ApplyReveals(map[], vs[..4], xs[..4]);
    assert m0 == map[];
    assert m1 == map[V1 := values[0]];
    assert m2 == m1[V2 := values[1]];
    assert m3 == m2[V3 := values[2]];
    assert m4 == m3[V4 := values[3]];
  }

  /** The five revealed values, in the map the reveal produces. */
  function Revealed(values: seq<nat>): map<Address, nat>
    requires |values| == 5
  {
    map[V1 := values[0], V2 := values[1], V3 := values[2], V4 := values[3], V5 := values[4]]
  }

  /** Walking the five evaluators in order collects their values in order. */
  lemma RevealedInOrder(values: seq<nat>)
    requires |values| == 5
    ensures RevealedValues(Validators, Revealed(values)) == values
  {
    var vs, m := Validators, Revealed(values);
    assert vs[..4] == [V1, V2, V3, V4] && vs[..3] == [V1, V2, V3] && vs[..2] == [V1, V2] && vs[..1] == [V1];
    assert vs[..4][..3] == vs[..3] && vs[..3][..2] == vs[..2] && vs[..2][..1] == vs[..1] && vs[..1][..0] == [];
    assert RevealedValues(vs[..1], m) == [values[0]];
    assert RevealedValues(vs[..2], m) == values[..2];
    assert RevealedValues(vs[..3], m) == values[..3];
    assert RevealedValues(vs[..4], m) == values[..4];
    assert values == values[..4] + [values[4]];
  }

  /** The rating pass over the five evaluators gives each its own tier. */
  lemma RatedInOrder(values: seq<nat>, average: nat)
    requires |values| == 5
    ensures RatingsAfter(map[], Validators, Revealed(values), average)
         == map[V1 := Tier(values[0], average), V2 := Tier(values[1], average), V3 := Tier(values[2], average),
                V4 := Tier(values[3], average), V5 := Tier(values[4], average)]
  {
    var vs, m := Validators, Revealed(values);
    assert vs[..4] == [V1, V2, V3, V4] && vs[..3] == [V1, V2, V3] && vs[..2] == [V1, V2] && vs[..1] == [V1];
    assert vs[..4][..3] == vs[..3] && vs[..3][..2] == vs[..2] && vs[..2][..1] == vs[..1] && vs[..1][..0] == [];
    assert RatingsAfter(map[], vs[..0], m, average) == map[];
    var r1 := RatingsAfter(map[], vs[..1], m, average);
    var r2 := RatingsAfter(map[], vs[..2], m, average);
    var r3 := RatingsAfter(map[], vs[..3], m, average);
    var r4 := RatingsAfter(map[], vs[..4], m, average);
    assert r1 == map[V1 := Tier(values[0], average)];
    assert r2 == r1[V2 := Tier(values[1], average)];
    assert r3 == r2[V3 := Tier(values[2], average)];
    assert r4 == r3[V4 := Tier(values[3], average)];
  }

  /** The sum of five values, term by term. */
  lemma SumFive(values: seq<nat>)
    requires |values| == 5
    ensures Sum(values) == values[0] + values[1] + values[2] + values[3] + values[4]
  {
    assert values[..4][..3] == values[..3] && values[..3][..2] == values[..2];
    assert values[..2][..1] == values[..1] && values[..1][..0] == [];
    assert Sum(values[..1]) == values[0];
    assert Sum(values[..2]) == values[0] + values[1];
    assert Sum(values[..3]) == values[0] + values[1] + values[2];
    assert Sum(values[..4]) == values[0] + values[1] + values[2] + values[3];
  }

  /** The rating example: bids of 100, 200, 300, 400 and 900 average to 380,
      and the validators are rated 1, 5, 10, 10 and 1. */
  lemma RatingExample()
    ensures var m := Revealed([100, 200, 300, 400, 900]);
      && V1 in m
      && Consensus(Validators, m) == 380
      && RatingsAfter(map[], Validators, m, 380) == map[V1 := 1, V2 := 5, V3 := 10, V4 := 10, V5 := 1]
  {
    var values := [100, 200, 300, 400, 900];
    RevealedInOrder(values);
    SumFive(values);
    RatedInOrder(values, 380);
  }

  /** The average example: bids of 100, 200, 300, 400 and 500 average to 300. */
  lemma AverageExample()
    ensures var m := Revealed([100, 200, 300, 400, 500]);
      V1 in m && Consensus(Validators, m) == 300
  {
    var values := [100, 200, 300, 400, 500];
    RevealedInOrder(values);
    SumFive(values);
  }

  /* ---------------------------------------------------------------------
     Fixtures
     --------------------------------------------------------------------- */

  /** The sealed bids stored once the first `k` validators have bid, in order. */
  function BidMap(bids: seq<string>, k: nat): map<Address, string>
    requires k <= |bids| == 5
  {
    if k == 0 then map[] else BidMap(bids, k - 1)[Validators[k - 1] := bids[k - 1]]
  }

  /** Each of the first `k` validators holds its own bid, and nobody else holds one. */
  lemma {:induction false} BidMapEntries(bids: seq<string>, k: nat, v: Address)
    requires k <= |bids| == 5
    ensures v in BidMap(bids, k) <==> 1 <= v <= k
    ensures v in BidMap(bids, k) ==> BidMap(bids, k)[v] == bids[v - 1]
  {
    if k > 0 {
      BidMapEntries(bids, k - 1, v);
    }
  }

  /** The record of the asset once the first `k` validators have bid, in order. */
  function BidRecord(publicKey: string, bids: seq<string>, k: nat): ValuationRecord
    requires k <= |bids| == 5
  {
    ValuationRecord(publicKey, "", BidMap(bids, k), Validators[..k], map[], 0, false)
  }

  /** The events of the set-up and the first `k` bids: each bid is announced,
      and the fifth, which brings the evaluators up to the five validators, also
      announces that evaluation is complete. */
  function BidLog(bids: seq<string>, k: nat): seq<Event>
    requires k <= |bids| == 5
  {
    if k == 0 then [SetupRwaToEvaluate(Asset, NftId)]
    else
      BidLog(bids, k - 1) + [Evaluated(Asset, NftId, Validators[k - 1], bids[k - 1])]
        + (if k == 5 then [FinishEvaluated(Asset, NftId)] else [])
  }

  /** One more bid extends the record by the next validator and its bid. */
  lemma BidRecordStep(publicKey: string, bids: seq<string>, k: nat)
    requires k < |bids| == 5
    ensures var rec := BidRecord(publicKey, bids, k);
      BidRecord(publicKey, bids, k + 1)
        == rec.(encoded := rec.encoded[Validators[k] := bids[k]], evaluators := rec.evaluators + [Validators[k]])
  {
    assert Validators[..k + 1] == Validators[..k] + [Validators[k]];
  }

  /** Deployment with the five validators and the admin. */
  method Deploy() returns (c: RwaValuation)
    ensures fresh(c) && c.Valid()
    ensures c.admin == Admin && c.validators == Validators
    ensures c.valuations == map[] && c.validatorRatings == map[] && c.log == []
  {
    c := new RwaValuation(Validators, Admin);
  }

  /** Deployment followed by the admin's set-up of the asset under `publicKey`. */
  method DeployAndOpen(publicKey: string, bids: seq<string>) returns (c: RwaValuation)
    requires |bids| == 5
    ensures fresh(c) && c.Valid()
    ensures c.admin == Admin && c.validators == Validators && c.validatorRatings == map[]
    ensures c.valuations == map[Key(Asset, NftId) := BidRecord(publicKey, bids, 0)]
    ensures c.log == [SetupRwaToEvaluate(Asset, NftId)]
  {
    c := Deploy();
    var r := c.SetUpRwaToValuate(Admin, NftId, publicKey, Asset);
    assert r == Pass;
    assert NewRecord(publicKey) == BidRecord(publicKey, bids, 0);
  }

  /** The next validator in line bids `bids[k]`: the bid is accepted and
      announced, and the fifth bid also announces that evaluation is complete. */
  method NextBid(c: RwaValuation, publicKey: string, bids: seq<string>, k: nat)
    requires k < |bids| == 5
    requires c.Valid() && c.validators == Validators
    requires c.valuations == map[Key(Asset, NftId) := BidRecord(publicKey, bids, k)]
    requires c.log == BidLog(bids, k)
    modifies c
    ensures c.Valid()
    ensures c.admin == old(c.admin) && c.validators == Validators && c.validatorRatings == old(c.validatorRatings)
    ensures c.valuations == map[Key(Asset, NftId) := BidRecord(publicKey, bids, k + 1)]
    ensures c.log == BidLog(bids, k + 1)
  {
    assert Validators[k] == k + 1;
    assert Validators[k] !in Validators[..k];
    var r := c.EvaluateRwa(Validators[k], NftId, bids[k], Asset);
    assert r == Pass;
    BidRecordStep(publicKey, bids, k);
  }

  /** Deployment, set-up of the asset under `publicKey`, and one bid from each
      validator in order; every call succeeds. */
  method DeployAndBid(publicKey: string, bids: seq<string>) returns (c: RwaValuation)
    requires |bids| == 5
    ensures fresh(c) && c.Valid()
    ensures c.admin == Admin && c.validators == Validators && c.validatorRatings == map[]
    ensures c.valuations == map[Key(Asset, NftId) := BidRecord(publicKey, bids, 5)]
    ensures c.log == BidLog(bids, 5)
  {
    c := DeployAndOpen(publicKey, bids);
    NextBid(c, publicKey, bids, 0);
    NextBid(c, publicKey, bids, 1);
    NextBid(c, publicKey, bids, 2);
    NextBid(c, publicKey, bids, 3);
    NextBid(c, publicKey, bids, 4);
  }

  /** After the five bids, the admin reveals `values` for the five validators in
      order together with the private key. */
  method RevealAll(c: RwaValuation, publicKey: string, bids: seq<string>, values: seq<nat>, privateKey: string)
    requires |bids| == 5 && |values| == 5
    requires c.Valid() && c.admin == Admin
    requires c.valuations == map[Key(Asset, NftId) := BidRecord(publicKey, bids, 5)]
    modifies c
    ensures c.Valid()
    ensures c.admin == Admin && c.validators == old(c.validators) && c.validatorRatings == old(c.validatorRatings)
    ensures c.log == old(c.log)
    ensures c.valuations == map[Key(Asset, NftId) :=
      BidRecord(publicKey, bids, 5).(decoded := Revealed(values), privateKey := privateKey)]
  {
    assert Validators[..5] == Validators;
    var r := c.SetDecodedValuation(Admin, NftId, Validators, values, privateKey, Asset);
    assert r == Pass;
    RevealFive(values);
  }

  /** After the reveal, the admin scores the round: the consensus becomes the
      final valuation and the five validators are rated against it. */
  method ScoreAll(c: RwaValuation, publicKey: string, bids: seq<string>, values: seq<nat>, privateKey: string)
    returns (average: nat)
    requires |bids| == 5 && |values| == 5
    requires c.Valid() && c.admin == Admin && c.validatorRatings == map[]
    requires c.valuations == map[Key(Asset, NftId) :=
      BidRecord(publicKey, bids, 5).(decoded := Revealed(values), privateKey := privateKey)]
    modifies c
    ensures c.Valid()
    ensures V1 in Revealed(values) && average == Consensus(Validators, Revealed(values))
    ensures c.admin == Admin && c.validators == old(c.validators)
    ensures c.validatorRatings == RatingsAfter(map[], Validators, Revealed(values), average)
    ensures c.valuations == map[Key(Asset, NftId) :=
      BidRecord(publicKey, bids, 5).(decoded := Revealed(values), privateKey := privateKey,
                                     finalValuation := average, finished := true)]
    ensures c.log == old(c.log) + [RwaEvaluated(Asset, NftId, average)]
  {
    assert Validators[..5] == Validators;
    assert V1 in Revealed(values);
    average := Consensus(Validators, Revealed(values));
    var r := c.CalculateRatings(Admin, NftId, Asset);
    assert r == Pass;
  }

  /* ---------------------------------------------------------------------
     The tests
     --------------------------------------------------------------------- */

  /** Deployment stores the validator list in order and the admin. */
  method DeploymentScenario() returns (validators: seq<Address>, admin: Address)
    ensures validators == [V1, V2, V3, V4, V5] && admin == Admin
  {
    var c := Deploy();
    validators := c.GetValidators();
    admin := c.admin;
  }

  /** Five validators bid; each bid reads back unchanged from its own slot. */
  method BidsScenario() returns (stored: seq<string>)
    ensures stored == ["100", "200", "300", "400", "500"]
  {
    var bids := ["100", "200", "300", "400", "500"];
    var c := DeployAndBid("0x1234", bids);
    BidMapEntries(bids, 5, V1);
    BidMapEntries(bids, 5, V2);
    BidMapEntries(bids, 5, V3);
    BidMapEntries(bids, 5, V4);
    BidMapEntries(bids, 5, V5);
    stored := [ c.GetEncodedValuation(NftId, V1, Asset), c.GetEncodedValuation(NftId, V2, Asset),
                c.GetEncodedValuation(NftId, V3, Asset), c.GetEncodedValuation(NftId, V4, Asset),
                c.GetEncodedValuation(NftId, V5, Asset) ];
  }

  /** A bid is announced with the asset, the token id, the bidder and the bid. */
  method EvaluatedEventScenario() returns (emitted: seq<Event>)
    ensures emitted == [Evaluated(Asset, NftId, V1, "100")]
  {
    var bids := ["100", "200", "300", "400", "500"];
    var c := DeployAndOpen("0x1234", bids);
    NextBid(c, "0x1234", bids, 0);
    emitted := c.log[1..];
  }

  /** A second bid from the same validator reverts, and the first bid stays,
      whatever the second bid carries (the same "100" or anything else). */
  method DoubleBidScenario(second: string) returns (r: Outcome<Revert>, stored: string)
    ensures r.Fail? && Message(r.error) == "You have already evaluated this NFT."
    ensures stored == "100"
  {
    var bids := ["100", "200", "300", "400", "500"];
    var c := DeployAndOpen("0x1234", bids);
    NextBid(c, "0x1234", bids, 0);
    BidMapEntries(bids, 1, V1);
    r := c.EvaluateRwa(V1, NftId, second, Asset);
    stored := c.GetEncodedValuation(NftId, V1, Asset);
  }

  /** A bid from an account that is not a validator reverts, even before any
      set-up. */
  method OutsiderBidScenario() returns (r: Outcome<Revert>)
    ensures r.Fail? && Message(r.error) == "You are not a validator."
  {
    var c := Deploy();
    r := c.EvaluateRwa(Outsider, NftId, "100", Asset);
  }

  /** Bids of 100, 200, 300, 400 and 900 are revealed and scored: the
      validators are rated 1, 5, 10, 10 and 1. */
  method RatingsScenario() returns (ratings: seq<nat>)
    ensures ratings == [1, 5, 10, 10, 1]
  {
    var bids, values := ["100", "200", "300", "400", "900"], [100, 200, 300, 400, 900];
    var c := DeployAndBid("0x1234", bids);
    RevealAll(c, "0x1234", bids, values, "0x5678");
    var average := ScoreAll(c, "0x1234", bids, values, "0x5678");
    RatingExample();
    ratings := [ c.GetValidatorRating(V1), c.GetValidatorRating(V2), c.GetValidatorRating(V3),
                 c.GetValidatorRating(V4), c.GetValidatorRating(V5) ];
  }

  /** Bids of 100 to 500 are revealed; their average is 300. */
  method AverageScenario() returns (average: Result<nat, Revert>)
    ensures average == Ok(300)
  {
    var bids, values := ["100", "200", "300", "400", "500"], [100, 200, 300, 400, 500];
    var c := DeployAndBid("0x1234", bids);
    RevealAll(c, "0x1234", bids, values, "0x5678");
    AverageExample();
    assert Validators[..5] == Validators;
    average := c.GetAverageValuation(NftId, Asset);
  }

  /** Asking for the average of an asset nobody evaluated reverts. */
  method NoEvaluationsScenario() returns (average: Result<nat, Revert>)
    ensures average.Err? && Message(average.error) == "No evaluations for this NFT"
  {
    var c := Deploy();
    average := c.GetAverageValuation(NftId, Asset);
  }

  /** The admin hands the role to another account. */
  method NewAdminScenario() returns (admin: Address)
    ensures admin == Outsider
  {
    var c := Deploy();
    var r := c.SetupNewAdmin(Admin, Outsider);
    admin := c.admin;
  }

  /** Anyone else trying to change the admin is refused, and the admin stays. */
  method NewAdminRefusedScenario() returns (r: Outcome<Revert>, admin: Address)
    ensures r.Fail? && Message(r.error) == "You are not the admin."
    ensures admin == Admin
  {
    var c := Deploy();
    r := c.SetupNewAdmin(Outsider, Outsider);
    admin := c.admin;
  }

  /** The admin registers a new validator. */
  method AddValidatorScenario() returns (registered: bool)
    ensures registered
  {
    var c := Deploy();
    var r := c.AddValidator(Admin, Outsider);
    registered := c.IsValidator(Outsider);
  }

  /** Anyone else trying to register a validator is refused, and the list stays. */
  method AddValidatorRefusedScenario() returns (r: Outcome<Revert>, registered: bool, validators: seq<Address>)
    ensures r.Fail? && Message(r.error) == "You are not the admin."
    ensures !registered && validators == Validators
  {
    var c := Deploy();
    r := c.AddValidator(Outsider, Outsider);
    registered := c.IsValidator(Outsider);
    validators := c.GetValidators();
  }

  /** The admin deregisters a validator. */
  method RemoveValidatorScenario() returns (registered: bool)
    ensures !registered
  {
    var c := Deploy();
    var r := c.RemoveValidator(Admin, V1);
    registered := c.IsValidator(V1);
  }

  /** Anyone else trying to deregister a validator is refused, and the list stays. */
  method RemoveValidatorRefusedScenario() returns (r: Outcome<Revert>, registered: bool, validators: seq<Address>)
    ensures r.Fail? && Message(r.error) == "You are not the admin."
    ensures registered && validators == Validators
  {
    var c := Deploy();
    r := c.RemoveValidator(Outsider, V1);
    registered := c.IsValidator(V1);
    validators := c.GetValidators();
  }

  /** Setting up an asset is announced with the asset and the token id. */
  method SetupEventScenario() returns (emitted: seq<Event>)
    ensures emitted == [SetupRwaToEvaluate(Asset, NftId)]
  {
    var c := DeployAndOpen("0x1234", ["100", "200", "300", "400", "500"]);
    emitted := c.log;
  }

  /** The fifth bid, and only the fifth, announces that evaluation is complete. */
  method FinishEventScenario() returns (early: seq<Event>, last: seq<Event>)
    ensures FinishEvaluated(Asset, NftId) !in early
    ensures last == [Evaluated(Asset, NftId, V5, "500"), FinishEvaluated(Asset, NftId)]
  {
    var bids := ["100", "200", "300", "400", "500"];
    var c := DeployAndOpen("0x1234", bids);
    NextBid(c, "0x1234", bids, 0);
    NextBid(c, "0x1234", bids, 1);
    NextBid(c, "0x1234", bids, 2);
    NextBid(c, "0x1234", bids, 3);
    early := c.log;
    NextBid(c, "0x1234", bids, 4);
    last := c.log[|early|..];
  }

  /** Scoring the round announces the asset, the token id and the average. */
  method RwaEvaluatedEventScenario() returns (emitted: seq<Event>)
    ensures emitted == [RwaEvaluated(Asset, NftId, 300)]
  {
    var bids, values := ["100", "200", "300", "400", "500"], [100, 200, 300, 400, 500];
    var c := DeployAndBid("0x1234", bids);
    RevealAll(c, "0x1234", bids, values, "0x5678");
    var before := |c.log|;
    var average := ScoreAll(c, "0x1234", bids, values, "0x5678");
    AverageExample();
    emitted := c.log[before..];
  }

  /** After a full round getValuation reports the public key of the set-up, the
      private key of the reveal, the average as final valuation, the finished
      flag and the evaluators in bidding order. */
  method GetValuationScenario(publicKey: string)
    returns (valuation: (string, string, nat, bool, seq<Address>))
    ensures valuation == (publicKey, "0x5678", 300, true, [V1, V2, V3, V4, V5])
  {
    var bids, values := ["100", "200", "300", "400", "500"], [100, 200, 300, 400, 500];
    var c := DeployAndBid(publicKey, bids);
    RevealAll(c, publicKey, bids, values, "0x5678");
    var average := ScoreAll(c, publicKey, bids, values, "0x5678");
    AverageExample();
    assert Validators[..5] == Validators;
    valuation := c.GetValuation(NftId, Asset);
  }

  /** A reveal after the round was scored is refused, so the final valuation
      stays the consensus of what was scored. No test covers this case. */
  method LateRevealScenario() returns (r: Outcome<Revert>, valuation: (string, string, nat, bool, seq<Address>))
    ensures r == Fail(AlreadyFinished)
    ensures valuation == ("0x1234", "0x5678", 300, true, [V1, V2, V3, V4, V5])
  {
    var bids, values := ["100", "200", "300", "400", "500"], [100, 200, 300, 400, 500];
    var c := DeployAndBid("0x1234", bids);
    RevealAll(c, "0x1234", bids, values, "0x5678");
    var average := ScoreAll(c, "0x1234", bids, values, "0x5678");
    AverageExample();
    assert Validators[..5] == Validators;
    r := c.SetDecodedValuation(Admin, NftId, [V1], [10000], "0x9", Asset);
    valuation := c.GetValuation(NftId, Asset);
  }
}
