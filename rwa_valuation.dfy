/** The RwaValuation contract: a validator registry under one admin, a sealed-bid
    record per (asset contract, token id), and a reputation table shared by all
    assets. The caller of each transaction is an explicit parameter. */
module ValuationContract {
  import opened Common
  import opened Scoring

  /** Identifies a record: the asset's token contract and the token id. */
  datatype Key = Key(asset: Address, tokenId: nat)

  /** The per-asset record behind getValuation. Keys and ciphertexts are opaque:
      the contract stores them and never relates a ciphertext to a revealed value. */
  datatype ValuationRecord = ValuationRecord(
    publicKey: string,                 // set at setup
    privateKey: string,                // written by the reveal
    encoded: map<Address, string>,     // one sealed bid per evaluator
    evaluators: seq<Address>,          // in submission order
    decoded: map<Address, nat>,        // admin-revealed plaintext values
    finalValuation: nat,
    finished: bool)
  {
    /** Each evaluator submitted once and has exactly one stored bid; reveals
        belong to evaluators; a finished record has something revealed, and its
        final valuation is the consensus of what was revealed. */
    ghost predicate Consistent()
    {
      && NoDup(evaluators)
      && encoded.Keys == Elems(evaluators)
      && decoded.Keys <= Elems(evaluators)
      && (finished ==> decoded != map[] && finalValuation == Consensus(evaluators, decoded))
    }
  }

  /** A freshly set-up record: only the public key is known. */
  function NewRecord(publicKey: string): ValuationRecord
  {
    ValuationRecord(publicKey, "", map[], [], map[], 0, false)
  }

  /** What the queries see for a key that was never set up (all zero values). */
  const NoRecord: ValuationRecord := NewRecord("")

  /** The reasons a transaction reverts. */
  datatype Revert =
    | NotAdmin          // an admin-only call from another account
    | NotValidator      // evaluateRwa from an unregistered account
    | AlreadyEvaluated  // a second bid from the same validator for the same key
    | NotSetUp          // a bid or a reveal for a key that was never set up
    | AlreadySetUp      // setUpRwaToValuate for a key that already has a record
    | LengthMismatch    // reveal lists of different lengths
    | NotAnEvaluator    // a reveal for an address that never submitted a bid
    | NoEvaluations     // an average over nothing revealed
    | AlreadyFinished   // a bid, a reveal or a second scoring for a scored record

  /** The revert reason string of each failure. Each tested string names its
      failure and no other. */
  function Message(e: Revert): (m: string)
    ensures e == NotAdmin <==> m == "You are not the admin."
    ensures e == NotValidator <==> m == "You are not a validator."
    ensures e == AlreadyEvaluated <==> m == "You have already evaluated this NFT."
    ensures e == NoEvaluations <==> m == "No evaluations for this NFT"
  {
    match e
    case NotAdmin => "You are not the admin."
    case NotValidator => "You are not a validator."
    case AlreadyEvaluated => "You have already evaluated this NFT."
    case NoEvaluations => "No evaluations for this NFT"
    case NotSetUp => "RWA is not set up for valuation."
    case AlreadySetUp => "RWA is already set up for valuation."
    case LengthMismatch => "Validators and valuations length mismatch."
    case NotAnEvaluator => "Validator has not evaluated this NFT."
    case AlreadyFinished => "Valuation of this NFT is already finished."
  }

  /** The notifications the contract emits. */
  datatype Event =
    | SetupRwaToEvaluate(asset: Address, tokenId: nat)
    | Evaluated(asset: Address, tokenId: nat, validator: Address, encoded: string)
    | FinishEvaluated(asset: Address, tokenId: nat)
    | RwaEvaluated(asset: Address, tokenId: nat, average: nat)

  /** The whole contract state, for saying in one clause that a call changed nothing. */
  datatype ContractState = ContractState(
    admin: Address,
    validators: seq<Address>,
    valuations: map<Key, ValuationRecord>,
    validatorRatings: map<Address, nat>,
    log: seq<Event>)

  /** The subsequence of `s` without `x`. */
  function Without(s: seq<Address>, x: Address): seq<Address>
  {
    if s == [] then []
    else Without(s[..|s| - 1], x) + (if s[|s| - 1] == x then [] else [s[|s| - 1]])
  }

  /** Removing `x` drops exactly `x`: every other member stays. */
  lemma {:induction false} WithoutMembers(s: seq<Address>, x: Address, y: Address)
    ensures y in Without(s, x) <==> y in s && y != x
  {
    if s != [] {
      var init := s[..|s| - 1];
      WithoutMembers(init, x, y);
      assert s == init + [s[|s| - 1]];
    }
  }

  class RwaValuation {
    var admin: Address
    var validators: seq<Address>
    var valuations: map<Key, ValuationRecord>
    var validatorRatings: map<Address, nat>
    var log: seq<Event>

    /** Every record is consistent, and every rating is one of the three tiers. */
    ghost predicate Valid()
      reads this
    {
      && (forall k :: k in valuations ==> valuations[k].Consistent())
      && (forall v :: v in validatorRatings ==> IsTier(validatorRatings[v]))
    }

    function State(): ContractState
      reads this
    {
      ContractState(admin, validators, valuations, validatorRatings, log)
    }

    /** The record for `key`, or the all-zero record when it was never set up. */
    function Record(key: Key): ValuationRecord
      reads this
    {
      if key in valuations then valuations[key] else NoRecord
    }

    /** Deployment: the validator list exactly as given, in order, and the admin. */
    constructor (initialValidators: seq<Address>, initialAdmin: Address)
      ensures Valid()
      ensures validators == initialValidators && admin == initialAdmin
      ensures valuations == map[] && validatorRatings == map[] && log == []
    {
      admin := initialAdmin;
      validators := initialValidators;
      valuations := map[];
      validatorRatings := map[];
      log := [];
    }

    /* ---------------------------------------------------------------------
       Queries
       --------------------------------------------------------------------- */

    /** Whether `account` holds a place in the registry list. */
    function IsValidator(account: Address): (b: bool)
      reads this
      ensures b <==> exists i :: 0 <= i < |validators| && validators[i] == account
    {
      account in validators
    }

    /** The registry list, in registration order: exactly the accounts
        IsValidator accepts. */
    function GetValidators(): (vs: seq<Address>)
      reads this
      ensures vs == validators
      ensures forall a :: a in vs <==> IsValidator(a)
    {
      validators
    }

    /** The sealed bid `validator` submitted for the key, or the empty string. */
    function GetEncodedValuation(tokenId: nat, validator: Address, asset: Address): (bid: string)
      requires Valid()
      reads this
      ensures validator !in Record(Key(asset, tokenId)).evaluators ==> bid == ""
      ensures validator in Record(Key(asset, tokenId)).evaluators ==> bid == Record(Key(asset, tokenId)).encoded[validator]
    {
      var rec := Record(Key(asset, tokenId));
      if validator in rec.encoded then rec.encoded[validator] else ""
    }

    /** (publicKey, privateKey, finalValuation, finished, evaluators) of the key:
        all zero values for a key never set up; the evaluators, each once, in
        submission order; once finished, a final valuation that is the
        consensus of the revealed values. */
    function GetValuation(tokenId: nat, asset: Address): (r: (string, string, nat, bool, seq<Address>))
      requires Valid()
      reads this
      ensures Key(asset, tokenId) !in valuations ==> r == ("", "", 0, false, [])
      ensures var rec := Record(Key(asset, tokenId));
        r == (rec.publicKey, rec.privateKey, rec.finalValuation, rec.finished, rec.evaluators)
      ensures NoDup(r.4)
      ensures r.3 ==> Record(Key(asset, tokenId)).decoded != map[]
                      && r.2 == Consensus(r.4, Record(Key(asset, tokenId)).decoded)
    {
      var rec := Record(Key(asset, tokenId));
      (rec.publicKey, rec.privateKey, rec.finalValuation, rec.finished, rec.evaluators)
    }

    /** The last tier written for `validator`: 0 exactly when it was never rated,
        and otherwise the stored rating, which is one of the three tiers. */
    function GetValidatorRating(validator: Address): (t: nat)
      requires Valid()
      reads this
      ensures t == 0 <==> validator !in validatorRatings
      ensures validator in validatorRatings ==> t == validatorRatings[validator] && IsTier(t)
    {
      if validator in validatorRatings then validatorRatings[validator] else 0
    }

    /** The integer mean of the values revealed for the key, summed over the
        evaluators in submission order; reverts when nothing has been revealed. */
    method GetAverageValuation(tokenId: nat, asset: Address) returns (r: Result<nat, Revert>)
      requires Valid()
      ensures var rec := Record(Key(asset, tokenId));
        r == if rec.decoded == map[] then Err(NoEvaluations)
             else Ok(Consensus(rec.evaluators, rec.decoded))
    {
      var rec := Record(Key(asset, tokenId));
      var sum, count := SumRevealed(rec.evaluators, rec.decoded);
      RevealedCount(rec.evaluators, rec.decoded);
      if count == 0 {
        return Err(NoEvaluations);
      }
      return Ok(sum / count);
    }

    /** The summing loop of getAverageValuation: walks the evaluators in
        submission order and adds up the values that have been revealed. */
    static method SumRevealed(evaluators: seq<Address>, decoded: map<Address, nat>)
      returns (sum: nat, count: nat)
      ensures sum == Sum(RevealedValues(evaluators, decoded))
      ensures count == |RevealedValues(evaluators, decoded)|
    {
      sum, count := 0, 0;
      var i := 0;
      while i < |evaluators|
        invariant 0 <= i <= |evaluators|
        invariant sum == Sum(RevealedValues(evaluators[..i], decoded))
        invariant count == |RevealedValues(evaluators[..i], decoded)|
      {
        var v := evaluators[i];
        var seen := RevealedValues(evaluators[..i], decoded);
        RevealedValuesStep(evaluators, decoded, i);
        if v in decoded {
          SumAppend(seen, decoded[v]);
          sum := sum + decoded[v];
          count := count + 1;
        } else {
          assert RevealedValues(evaluators[..i + 1], decoded) == seen + [] == seen;
        }
        i := i + 1;
      }
      assert evaluators[..i] == evaluators;
    }

    /* ---------------------------------------------------------------------
       Registry administration
       --------------------------------------------------------------------- */

    method SetupNewAdmin(caller: Address, newAdmin: Address) returns (r: Outcome<Revert>)
      requires Valid()
      modifies this
      ensures Valid()
      ensures r == if caller == old(admin) then Pass else Fail(NotAdmin)
      ensures r.Pass? ==> State() == old(State()).(admin := newAdmin)
      ensures r.Fail? ==> State() == old(State())
    {
      if caller != admin {
        return Fail(NotAdmin);
      }
      admin := newAdmin;
      return Pass;
    }

    /** Registers `account`; registering a member again leaves the list as it is. */
    method AddValidator(caller: Address, account: Address) returns (r: Outcome<Revert>)
      requires Valid()
      modifies this
      ensures Valid()
      ensures r == if caller == old(admin) then Pass else Fail(NotAdmin)
      ensures r.Pass? ==> IsValidator(account)
      ensures r.Pass? ==> forall a :: a != account ==> (IsValidator(a) <==> old(IsValidator(a)))
      ensures r.Pass? ==> State() == old(State()).(validators := validators)
      ensures r.Pass? ==> validators == if account in old(validators) then old(validators) else old(validators) + [account]
      ensures r.Fail? ==> State() == old(State())
    {
      if caller != admin {
        return Fail(NotAdmin);
      }
      if account !in validators {
        validators := validators + [account];
      }
      return Pass;
    }

    /** Deregisters `account`, keeping the order of the remaining validators. Bids,
        reveals and ratings already recorded for it stay. */
    method RemoveValidator(caller: Address, account: Address) returns (r: Outcome<Revert>)
      requires Valid()
      modifies this
      ensures Valid()
      ensures r == if caller == old(admin) then Pass else Fail(NotAdmin)
      ensures r.Pass? ==> !IsValidator(account)
      ensures r.Pass? ==> forall a :: a != account ==> (IsValidator(a) <==> old(IsValidator(a)))
      ensures r.Pass? ==> validators == Without(old(validators), account)
      ensures r.Pass? ==> State() == old(State()).(validators := validators)
      ensures r.Fail? ==> State() == old(State())
    {
      if caller != admin {
        return Fail(NotAdmin);
      }
      var current := validators;
      var kept: seq<Address> := [];
      var i := 0;
      while i < |current|
        invariant 0 <= i <= |current|
        invariant kept == Without(current[..i], account)
      {
        assert current[..i + 1][..i] == current[..i];
        if current[i] != account {
          kept := kept + [current[i]];
        }
        i := i + 1;
      }
      assert current[..i] == current;
      validators := kept;
      forall a
        ensures a in validators <==> a in current && a != account
      {
        WithoutMembers(current, account, a);
      }
      return Pass;
    }

    /* ---------------------------------------------------------------------
       The sealed-bid lifecycle
       --------------------------------------------------------------------- */

    /** Opens a record for (asset, tokenId) under `publicKey`. */
    method SetUpRwaToValuate(caller: Address, tokenId: nat, publicKey: string, asset: Address)
      returns (r: Outcome<Revert>)
      requires Valid()
      modifies this
      ensures Valid()
      ensures r == if caller != old(admin) then Fail(NotAdmin)
                   else if Key(asset, tokenId) in old(valuations) then Fail(AlreadySetUp)
                   else Pass
      ensures r.Pass? ==> State() == old(State()).(
        valuations := old(valuations)[Key(asset, tokenId) := NewRecord(publicKey)],
        log := old(log) + [SetupRwaToEvaluate(asset, tokenId)])
      ensures r.Fail? ==> State() == old(State())
    {
      var key := Key(asset, tokenId);
      if caller != admin {
        return Fail(NotAdmin);
      }
      if key in valuations {
        return Fail(AlreadySetUp);
      }
      valuations := valuations[key := NewRecord(publicKey)];
      log := log + [SetupRwaToEvaluate(asset, tokenId)];
      return Pass;
    }

    /** A validator submits its sealed bid. The call that brings the number of
        evaluators up to the number of registered validators also announces that
        evaluation is complete. */
    method EvaluateRwa(caller: Address, tokenId: nat, encoded: string, asset: Address)
      returns (r: Outcome<Revert>)
      requires Valid()
      modifies this
      ensures Valid()
      ensures var key := Key(asset, tokenId);
        r == if caller !in old(validators) then Fail(NotValidator)
             else if key !in old(valuations) then Fail(NotSetUp)
             else if caller in old(valuations)[key].evaluators then Fail(AlreadyEvaluated)
             else if old(valuations)[key].finished then Fail(AlreadyFinished)
             else Pass
      ensures r.Pass? ==>
        var rec := old(Record(Key(asset, tokenId)));
        valuations == old(valuations)[Key(asset, tokenId) :=
          rec.(encoded := rec.encoded[caller := encoded], evaluators := rec.evaluators + [caller])]
      ensures r.Pass? ==>
        log == old(log) + [Evaluated(asset, tokenId, caller, encoded)]
               + (if |Record(Key(asset, tokenId)).evaluators| == |validators| then [FinishEvaluated(asset, tokenId)] else [])
      ensures admin == old(admin) && validators == old(validators) && validatorRatings == old(validatorRatings)
      ensures r.Pass? ==> GetEncodedValuation(tokenId, caller, asset) == encoded
      ensures forall v :: v != caller ==>
                GetEncodedValuation(tokenId, v, asset) == old(GetEncodedValuation(tokenId, v, asset))
      ensures r.Fail? ==> unchanged(this)
    {
      var key := Key(asset, tokenId);
      if caller !in validators {
        return Fail(NotValidator);
      }
      if key !in valuations {
        return Fail(NotSetUp);
      }
      var rec := valuations[key];
      if caller in rec.evaluators {
        return Fail(AlreadyEvaluated);
      }
      if rec.finished {
        return Fail(AlreadyFinished);
      }
      var rec' := rec.(encoded := rec.encoded[caller := encoded], evaluators := rec.evaluators + [caller]);
      NoDupAppend(rec.evaluators, caller);
      assert rec'.Consistent();
      var valuations' := valuations[key := rec'];
      assert forall k :: k in valuations' ==> valuations'[k].Consistent();
      var emitted := [Evaluated(asset, tokenId, caller, encoded)]
        + (if |rec'.evaluators| == |validators| then [FinishEvaluated(asset, tokenId)] else []);
      valuations := valuations';
      log := log + emitted;
      return Pass;
    }

    /** The admin reveals plaintext values, pairing `decodedValidators[i]` with
        `decodedValues[i]`, and discloses the private key. The values are taken
        on trust: nothing checks them against the sealed bids. */
    method SetDecodedValuation(caller: Address, tokenId: nat, decodedValidators: seq<Address>,
                               decodedValues: seq<nat>, privateKey: string, asset: Address)
      returns (r: Outcome<Revert>)
      requires Valid()
      modifies this
      ensures Valid()
      ensures var key := Key(asset, tokenId);
        r == if caller != old(admin) then Fail(NotAdmin)
             else if |decodedValidators| != |decodedValues| then Fail(LengthMismatch)
             else if key !in old(valuations) then Fail(NotSetUp)
             else if old(valuations)[key].finished then Fail(AlreadyFinished)
             else if exists v :: v in decodedValidators && v !in old(valuations)[key].evaluators then Fail(NotAnEvaluator)
             else Pass
      ensures r.Pass? ==>
        var key := Key(asset, tokenId);
        var rec := old(Record(key));
        State() == old(State()).(valuations := old(valuations)[key :=
          rec.(decoded := ApplyReveals(rec.decoded, decodedValidators, decodedValues),
               privateKey := privateKey)])
      ensures r.Fail? ==> State() == old(State())
    {
      var key := Key(asset, tokenId);
      if caller != admin {
        return Fail(NotAdmin);
      }
      if |decodedValidators| != |decodedValues| {
        return Fail(LengthMismatch);
      }
      if key !in valuations {
        return Fail(NotSetUp);
      }
      var rec := valuations[key];
      if rec.finished {
        return Fail(AlreadyFinished);
      }
      var decoded := rec.decoded;
      var i := 0;
      while i < |decodedValidators|
        invariant 0 <= i <= |decodedValidators|
        invariant forall v :: v in decodedValidators[..i] ==> v in rec.evaluators
        invariant decoded == ApplyReveals(rec.decoded, decodedValidators[..i], decodedValues[..i])
      {
        var v := decodedValidators[i];
        if v !in rec.evaluators {
          return Fail(NotAnEvaluator);
        }
        assert decodedValidators[..i + 1][..i] == decodedValidators[..i];
        assert decodedValues[..i + 1][..i] == decodedValues[..i];
        decoded := decoded[v := decodedValues[i]];
        i := i + 1;
      }
      assert decodedValidators[..i] == decodedValidators;
      assert decodedValues[..i] == decodedValues;
      RevealKeys(rec.decoded, decodedValidators, decodedValues);
      valuations := valuations[key := rec.(decoded := decoded, privateKey := privateKey)];
      return Pass;
    }

    /** The rating pass of calculateRatings: walks the evaluators in submission
        order and overwrites the rating of each one whose value was revealed. */
    static method RatePass(before: map<Address, nat>, evaluators: seq<Address>,
                           decoded: map<Address, nat>, average: nat)
      returns (ratings: map<Address, nat>)
      ensures ratings == RatingsAfter(before, evaluators, decoded, average)
    {
      ratings := before;
      var i := 0;
      while i < |evaluators|
        invariant 0 <= i <= |evaluators|
        invariant ratings == RatingsAfter(before, evaluators[..i], decoded, average)
      {
        var v := evaluators[i];
        assert evaluators[..i + 1][..i] == evaluators[..i];
        if v in decoded {
          ratings := ratings[v := Tier(decoded[v], average)];
        }
        i := i + 1;
      }
      assert evaluators[..i] == evaluators;
    }

    /** Scores the round: every revealed validator's rating is overwritten with its
        tier against the consensus, which becomes the final valuation. */
    method CalculateRatings(caller: Address, tokenId: nat, asset: Address) returns (r: Outcome<Revert>)
      requires Valid()
      modifies this
      ensures Valid()
      ensures r == if caller != old(admin) then Fail(NotAdmin)
                   else if old(Record(Key(asset, tokenId))).finished then Fail(AlreadyFinished)
                   else if old(Record(Key(asset, tokenId))).decoded == map[] then Fail(NoEvaluations)
                   else Pass
      ensures r.Pass? ==> (
        var rec := old(Record(Key(asset, tokenId)));
        var average := Consensus(rec.evaluators, rec.decoded);
        && valuations == old(valuations)[Key(asset, tokenId) := rec.(finalValuation := average, finished := true)]
        && validatorRatings == RatingsAfter(old(validatorRatings), rec.evaluators, rec.decoded, average)
        && log == old(log) + [RwaEvaluated(asset, tokenId, average)])
      ensures admin == old(admin) && validators == old(validators)
      ensures r.Fail? ==> unchanged(this)
    {
      if caller != admin {
        return Fail(NotAdmin);
      }
      var key := Key(asset, tokenId);
      if Record(key).finished {
        return Fail(AlreadyFinished);
      }
      var avg := GetAverageValuation(tokenId, asset);
      if avg.Err? {
        return Fail(avg.error);
      }
      assert key in valuations by {
        assert NoRecord.decoded == map[];
      }
      var rec := valuations[key];
      assert rec == old(Record(key)) && rec.Consistent();
      assert avg.value == Consensus(rec.evaluators, rec.decoded);
      var average := avg.value;
      var ratings := RatePass(validatorRatings, rec.evaluators, rec.decoded, average);
      RatingsAfterTiers(validatorRatings, rec.evaluators, rec.decoded, average);
      var rec' := rec.(finalValuation := average, finished := true);
      assert rec'.Consistent();
      var valuations' := valuations[key := rec'];
      assert forall k :: k in valuations' ==> valuations'[k].Consistent();
      validatorRatings, valuations, log := ratings, valuations', log + [RwaEvaluated(asset, tokenId, average)];
      return Pass;
    }
  }
}
