# RWA valuation and token contracts in Dafny

This project models the two on-chain contracts of a real-world-asset
appraisal system and proves properties of the model.

**RwaValuation** keeps a registry of validators under one admin. For each
asset, identified by its token contract and token id, it runs a sealed-bid
round:

1. the admin sets the asset up under a public key;
2. each validator submits one encrypted bid, and the bid that brings the
   number of evaluators up to the number of validators announces that
   evaluation is finished;
3. the admin reveals the plaintext values together with the private key;
4. the admin scores the round. The floor average of the revealed values
   becomes the final valuation. Each revealed validator's entry in the shared
   reputation table is overwritten with 10, 5 or 1, depending on how far its
   value lies from the average.

**RwaToken** is the asset token. Ids are issued in sequence from 1, and each
token has an owner and a metadata URL that can be replaced.

The contracts' Solidity is not part of this model. Their behaviour is rebuilt
from the Hardhat test suites `test/rwaValuation.test.ts` and
`test/rwaToken.test.ts`. Where those tests are silent (a bid or reveal for an
asset never set up, a second set-up, reveal lists of different lengths, a
reveal for an address that never bid, a bid, reveal or second scoring after
the round is scored, who may call set-up, reveal and scoring, which bids
emit FinishEvaluated, and the edges of the tier rule), the model
picks one behaviour and says so below. None of these cases is claimed as tested.

Files:

- `common.dfy` (module `Common`): addresses, the `Result`/`Outcome`/`Option`
  wrappers, and distinctness facts about sequences.
- `scoring.dfy` (module `Scoring`): the pure arithmetic of the protocol.
  It covers the sum and floor average, the tier rule, the values revealed in
  submission order, the consensus, the reveal as a map update, and the rating
  pass.
- `rwa_valuation.dfy` (module `ValuationContract`): the `RwaValuation` class.
  Its fields are the admin, the validator list, the records, the reputation
  table and the event log. Every transaction is a `modifies this` method that
  takes the caller as a parameter and returns `Pass` or `Fail(reason)`. The
  summing loop of `getAverageValuation` and the rating loop of
  `calculateRatings` are methods with loop invariants, proved against the
  functions of `Scoring`.
- `rwa_token.dfy` (module `TokenContract`): the `RwaToken` class, with a
  counter, an owner map, a URL map and an event log.
- `valuation_scenarios.dfy` and `token_scenarios.dfy`: each test replayed on a
  fresh deployment. The postconditions of each scenario are the values that
  test expects. Validators are addresses 1 to 5, the admin or deployer is 0,
  the outside account is 6, and the asset token contract is 100.

A revert is a `Fail`/`Err` result, and a reverted call leaves the whole state
unchanged. `Message` maps each revert to its reason string.

## Model

| member | source | states |
|---|---|---|
| ValuationContract.RwaValuation.constructor | test/rwaValuation.test.ts:11-44 | the validator list is stored exactly as given, in order, and the admin is the given account; there are no records, ratings or events yet |
| ValuationContract.RwaValuation.IsValidator | test/rwaValuation.test.ts:193-212 | true exactly for an account that holds a place in the registry list |
| ValuationContract.RwaValuation.GetValidators | test/rwaValuation.test.ts:34-38 | the registry list in registration order, holding exactly the accounts isValidator accepts |
| ValuationContract.RwaValuation.GetEncodedValuation | test/rwaValuation.test.ts:65-69 | for every evaluator of the asset, the bid stored in its own slot (every evaluator has one); the empty string for an account that never bid on the asset |
| ValuationContract.RwaValuation.GetValuation | test/rwaValuation.test.ts:305-319 | the record's stored public key, private key, final valuation, finished flag and evaluators, and all zero values for an asset never set up; the evaluators each once in submission order; once finished, a final valuation equal to the consensus of the revealed values |
| ValuationContract.RwaValuation.GetValidatorRating | test/rwaValuation.test.ts:133-137 | 0 exactly for a validator never rated, and otherwise the stored rating, which is 10, 5 or 1 |
| ValuationContract.Message | test/rwaValuation.test.ts:84-219 | each of the four tested reason strings is produced by its own failure and by no other |
| ValuationContract.RwaValuation.SetupNewAdmin | test/rwaValuation.test.ts:179-191 | succeeds exactly when the caller is the admin, and then only the admin changes; otherwise it fails with "You are not the admin." and nothing changes |
| ValuationContract.RwaValuation.AddValidator | test/rwaValuation.test.ts:193-205 | admin only (else "You are not the admin.", nothing changes); afterwards the account is a validator and every other account's membership is as before |
| ValuationContract.RwaValuation.RemoveValidator | test/rwaValuation.test.ts:207-219 | admin only (else "You are not the admin.", nothing changes); afterwards the account is no validator, every other account's membership is as before, and the list keeps its order |
| ValuationContract.WithoutMembers | test/rwaValuation.test.ts:207-212 | removing an address from the list drops exactly that address |
| ValuationContract.RwaValuation.SetUpRwaToValuate | test/rwaValuation.test.ts:223-231 | admin only; opens an empty record under the public key and emits SetupRwaToEvaluate(asset, tokenId); nothing else changes |
| ValuationContract.RwaValuation.EvaluateRwa | test/rwaValuation.test.ts:48-252 | fails with "You are not a validator." for a non-validator whether or not the asset is set up, and with "You have already evaluated this NFT." for a second bid, and with `AlreadyFinished` on a record already scored; on failure nothing changes, so the first bid stays; on success the bid is stored in the caller's slot, the caller is appended to the evaluators, no other validator's slot changes, and Evaluated(asset, tokenId, validator, bid) is emitted, followed by FinishEvaluated(asset, tokenId) exactly when the evaluators now number as many as the validators |
| ValuationContract.RwaValuation.SetDecodedValuation | test/rwaValuation.test.ts:126-129 | admin only; refused for a record already scored; the record's revealed values become the old ones updated pair by pair with the listed validators and values, and the private key is stored; nothing else changes |
| ValuationContract.RwaValuation.GetAverageValuation | test/rwaValuation.test.ts:142-175 | fails with "No evaluations for this NFT" exactly when nothing has been revealed for the asset; otherwise returns the consensus: the sum of the revealed values divided, rounding down, by their number |
| ValuationContract.RwaValuation.SumRevealed | test/rwaValuation.test.ts:165-166 | the summing loop adds up exactly the revealed values of the evaluators, in submission order, and counts them |
| ValuationContract.RwaValuation.RatePass | test/rwaValuation.test.ts:130-137 | the rating loop produces the table of the ordered rating pass `RatingsAfter` |
| ValuationContract.RwaValuation.CalculateRatings | test/rwaValuation.test.ts:108-282 | admin only; refused for a record already scored; fails when nothing was revealed; otherwise the final valuation becomes the consensus, the record is marked finished, the ratings of exactly the revealed validators are overwritten with their tiers, and RwaEvaluated(asset, tokenId, consensus) is emitted; nothing else in the record changes |
| Scoring.Tier | test/rwaValuation.test.ts:133-137 | every rating is 10, 5 or 1, and it is 1 when the average is 0 |
| Scoring.TierMatchesRatio | test/rwaValuation.test.ts:133-137 | as a deviation ratio \|value - average\| / average, a ratio of at most 0.25 earns 10, one in (0.25, 0.5] earns 5, and one above 0.5 earns 1 (both directions) |
| Scoring.TierMonotone | test/rwaValuation.test.ts:133-137 | a value at least as close to the consensus never earns a lower rating |
| Scoring.SumPermutation | test/rwaValuation.test.ts:165-166 | the sum of the revealed values does not depend on the order they are added in: any two orderings of the same values have the same sum |
| Scoring.AverageBounds | test/rwaValuation.test.ts:165-166 | the floor average lies between the lowest and the highest value averaged |
| Scoring.AverageOfAgreement | test/rwaValuation.test.ts:165-166 | when all revealed values agree, the average is that value |
| Scoring.RevealedCount | test/rwaValuation.test.ts:163-166 | over distinct evaluators that include every revealed validator, the values summed are as many as the revealed validators, and none exactly when nothing was revealed |
| Scoring.ConsensusBounds | test/rwaValuation.test.ts:163-166 | the consensus is the floor average of the revealed values and lies between the lowest and the highest of them |
| Scoring.ConsensusOfReveal | test/rwaValuation.test.ts:126-166 | after a first reveal that pairs distinct evaluators with their values, the consensus is the floor mean of exactly those values, whatever order the evaluators bid in |
| Scoring.RevealKeys | test/rwaValuation.test.ts:127-129 | revealing adds exactly the listed validators to the revealed set |
| Scoring.RevealLastWins | test/rwaValuation.test.ts:127-129 | each listed validator ends up with the value paired with its last occurrence in the list |
| Scoring.RevealKeepsOthers | test/rwaValuation.test.ts:127-129 | a validator not listed keeps the value revealed for it before, or stays unrevealed |
| Scoring.RatingsAfterEntries | test/rwaValuation.test.ts:130-137 | after the rating pass, a validator holds its tier exactly when it is an evaluator whose value was revealed; every other entry is as before |
| Scoring.RatingsAfterIsRate | test/rwaValuation.test.ts:130-137 | the ordered pass equals the order-free table `Rate` whenever every revealed validator is an evaluator |
| Scoring.RatingsAfterTiers | test/rwaValuation.test.ts:130-137 | after the rating pass every revealed evaluator holds 10, 5 or 1, and a table that held only tiers still holds only tiers |
| ValuationScenarios.DeploymentScenario | test/rwaValuation.test.ts:34-44 | getValidators returns the five validators in order and admin returns the deployer's admin |
| ValuationScenarios.BidsScenario | test/rwaValuation.test.ts:48-70 | after five bids each getEncodedValuation returns that validator's own bid |
| ValuationScenarios.BidMapEntries | test/rwaValuation.test.ts:59-69 | after the first k bids exactly the first k validators hold a bid, each its own |
| ValuationScenarios.NextBid | test/rwaValuation.test.ts:59-63 | each validator's first bid is accepted, and only the fifth also emits FinishEvaluated |
| ValuationScenarios.EvaluatedEventScenario | test/rwaValuation.test.ts:72-82 | one bid emits exactly Evaluated(asset, 1, validator1, "100") |
| ValuationScenarios.DoubleBidScenario | test/rwaValuation.test.ts:84-95 | the second bid reverts with "You have already evaluated this NFT." and the first bid is still stored, whether the second bid carries the same payload (as in the test) or another one |
| ValuationScenarios.OutsiderBidScenario | test/rwaValuation.test.ts:97-104 | a bid from the outside account, with no set-up, reverts with "You are not a validator." |
| ValuationScenarios.RatingExample | test/rwaValuation.test.ts:113-137 | revealed values 100, 200, 300, 400, 900 give consensus 380 and ratings 1, 5, 10, 10, 1 |
| ValuationScenarios.RatingsScenario | test/rwaValuation.test.ts:108-138 | the full round leaves validatorRatings at 1, 5, 10, 10, 1 |
| ValuationScenarios.AverageExample | test/rwaValuation.test.ts:147-166 | revealed values 100, 200, 300, 400, 500 give consensus 300 |
| ValuationScenarios.AverageScenario | test/rwaValuation.test.ts:142-167 | getAverageValuation returns 300 after the reveal |
| ValuationScenarios.NoEvaluationsScenario | test/rwaValuation.test.ts:169-175 | getAverageValuation on an untouched asset reverts with "No evaluations for this NFT" |
| ValuationScenarios.NewAdminScenario | test/rwaValuation.test.ts:179-184 | the admin makes the outside account admin |
| ValuationScenarios.NewAdminRefusedScenario | test/rwaValuation.test.ts:186-191 | the outside account is refused with "You are not the admin." and the admin stays |
| ValuationScenarios.AddValidatorScenario | test/rwaValuation.test.ts:193-198 | after the admin adds the outside account, isValidator is true for it |
| ValuationScenarios.AddValidatorRefusedScenario | test/rwaValuation.test.ts:200-205 | the outside account is refused with "You are not the admin." and the list stays |
| ValuationScenarios.RemoveValidatorScenario | test/rwaValuation.test.ts:207-212 | after the admin removes validator 1, isValidator is false for it |
| ValuationScenarios.RemoveValidatorRefusedScenario | test/rwaValuation.test.ts:214-219 | the outside account is refused with "You are not the admin." and validator 1 stays |
| ValuationScenarios.SetupEventScenario | test/rwaValuation.test.ts:223-231 | set-up emits exactly SetupRwaToEvaluate(asset, 1) |
| ValuationScenarios.FinishEventScenario | test/rwaValuation.test.ts:233-252 | the fifth bid emits its Evaluated event followed by FinishEvaluated(asset, 1), as the test asserts; that the first four bids emit no FinishEvaluated is the model's rule, which the test does not assert |
| ValuationScenarios.LateRevealScenario | test/rwaValuation.test.ts:254-282 | an untested choice of the model: after the round of this test (values 100 to 500) is scored, a further reveal is refused with `AlreadyFinished` and getValuation still reports the final valuation 300 |
| ValuationScenarios.RwaEvaluatedEventScenario | test/rwaValuation.test.ts:254-282 | scoring the round emits exactly RwaEvaluated(asset, 1, 300) |
| ValuationScenarios.GetValuationScenario | test/rwaValuation.test.ts:287-320 | after a full round getValuation returns the set-up public key, "0x5678", 300, true and the evaluators in bidding order |
| TokenContract.RwaToken.constructor | test/rwaToken.test.ts:9-33 | name, symbol and owner are the given name, the given symbol and the deployer; no token exists |
| TokenContract.Message | test/rwaToken.test.ts:82-108 | each of the two reason strings is produced by its own failure and by no other |
| TokenContract.RwaToken.OwnerOf | test/rwaToken.test.ts:37-46 | an owner exists exactly for the ids that were minted |
| TokenContract.RwaToken.TokenURI | test/rwaToken.test.ts:92-108 | a URL exists exactly for the ids that were minted; any other id reverts with "RwaToken: URL query for nonexistent token" |
| TokenContract.RwaToken.Mint | test/rwaToken.test.ts:37-55 | the new id is one past the last, so the first is 1; it was unused; it gets the recipient and the URL; UrlUpdated(id, url) is emitted; no other id's owner or URL changes |
| TokenContract.RwaToken.SetUrl | test/rwaToken.test.ts:58-89 | on a minted id the URL is replaced and UrlUpdated(id, url) is emitted, and no other id's URL changes; on any other id it reverts with "RwaToken: URL set of nonexistent token" and nothing changes |
| TokenScenarios.DeploymentScenario | test/rwaToken.test.ts:21-33 | name "Real World Asset Token", symbol "RWA", owner the deployer |
| TokenScenarios.MintScenario | test/rwaToken.test.ts:37-55 | the first mint yields id 1, owned by the recipient, with the given URL, emitting UrlUpdated(1, url) |
| TokenScenarios.SetUrlScenario | test/rwaToken.test.ts:59-80 | after setUrl(1, newUrl) tokenURI(1) is the new URL and UrlUpdated(1, newUrl) is emitted |
| TokenScenarios.SetUrlNonexistentScenario | test/rwaToken.test.ts:82-89 | setUrl on an unminted id reverts with "RwaToken: URL set of nonexistent token", and the id still has no URL |
| TokenScenarios.TokenUriNonexistentScenario | test/rwaToken.test.ts:102-108 | tokenURI on an unminted id reverts with "RwaToken: URL query for nonexistent token" |
| TokenScenarios.SecondMintScenario | test/rwaToken.test.ts:37-68 | a second mint gets id 2 and leaves token 1's owner and URL as they were |

## Left out

- The contracts' Solidity is not part of this model, so every behaviour that
  no test asserts is a modelling choice. These choices are: a bid or reveal
  for an asset never set up fails with `NotSetUp`; a second set-up of the same
  asset fails with `AlreadySetUp`; reveal lists of different lengths fail
  with `LengthMismatch`; a reveal for an address that never bid fails with
  `NotAnEvaluator`; a bid, a reveal or a second `calculateRatings` on a record
  that is already finished fails with `AlreadyFinished`, so a final valuation
  never goes stale; `setUpRwaToValuate`, `setDecodedValuation` and
  `calculateRatings` are admin-only and fail with "You are not the admin."
  for anyone else (the tests call them only from the admin and assert that
  text only for `setupNewAdmin`, `addValidator` and `removeValidator`);
  `getAverageValuation` is a read-only query anyone may make;
  `FinishEvaluated` is emitted by the bid that makes the number of evaluators
  equal to the number of validators registered at that moment, and by no
  earlier bid (the tests only assert that the fifth of five bids emits it);
  and at the
  edges of the tier rule, a deviation of exactly a quarter or exactly half of
  the average takes the better tier, and an average of 0 gives every revealed
  validator 1. The tier rule compares `4 * |value - average|` and
  `2 * |value - average|` with the average exactly, so it can differ from a
  rule that first truncates a percentage: for average 401 and value 502,
  `100 * 101 / 401` truncates to 25 and would earn 10, while the model gives 5.
  Only the ratings for the values 100, 200, 300, 400 and 900 are tested.
- ValuationContract.Message: the reason strings for `NotSetUp`,
  `AlreadySetUp`, `LengthMismatch`, `NotAnEvaluator` and `AlreadyFinished` are
  placeholders, because no test fixes them. The other four strings are the
  tested ones.
- ValuationContract.RwaValuation.GetEncodedValuation,
  ValuationContract.RwaValuation.GetValuation and
  ValuationContract.RwaValuation.GetValidatorRating: for an asset or validator
  never written, these return the all-zero value that an unset storage
  mapping reads as. No test covers that case.
- ValuationContract.RwaValuation.AddValidator: adding an address that is
  already registered leaves the list as it is. Whether the contract would
  append a duplicate is not visible.
- ValuationContract.RwaValuation.RemoveValidator: removal keeps the order of
  the remaining validators. A contract using swap-and-pop would reorder them.
  The tests only check membership.
- ValuationContract.RwaValuation.SetDecodedValuation: the revealed values are
  taken on trust. The model does not relate them to the stored ciphertexts.
- The consensus divides by the number of revealed validators and sums in
  submission order. `Scoring.ConsensusOfReveal` shows that after a first
  reveal of distinct evaluators this is the plain floor mean of the revealed
  values, in any order.
- Encryption and key handling (RSA-OAEP sealing, AES, key generation, PEM and
  base64 conversion) are left out. Keys and ciphertexts are opaque strings.
- The deployment configuration and the command-line scripts are left out.
  The scripts are network clients that read deployed addresses, write key
  files, make concurrent calls and draw random numbers.
- Gas, transaction ordering, 256-bit overflow, and authentication of the
  sender are left out. The caller is an explicit parameter, and amounts are
  unbounded naturals.
- TokenContract.RwaToken.Mint and TokenContract.RwaToken.SetUrl: who may call
  them is not modelled, because no test calls them from another account.
  ERC-721 transfers, approvals and balances are left out, and the zero-address
  checks are left out too.
- TokenContract.RwaToken.OwnerOf: an unminted id yields `None`. The revert text
  the token library would give is not fixed by any test.
