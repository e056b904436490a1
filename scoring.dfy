/** The arithmetic of the reveal-then-score protocol: ingesting revealed
    values, the consensus average and the three reputation tiers. Everything
    here is pure; the RwaValuation contract applies it to its stored records. */
module Scoring {
  import opened Common

  /* ---------------------------------------------------------------------
     Sums and averages
     --------------------------------------------------------------------- */

  /** The sum of a sequence of appraisals, taken from the end so that a loop
      adding one entry at a time follows it directly. */
  function Sum(s: seq<nat>): nat
  {
    if s == [] then 0 else Sum(s[..|s| - 1]) + s[|s| - 1]
  }

  /** The consensus valuation: the integer (floor) mean of the values. */
  function Average(s: seq<nat>): nat
    requires |s| > 0
  {
    Sum(s) / |s|
  }

  /** Appending a value adds it to the sum. */
  lemma SumAppend(s: seq<nat>, x: nat)
    ensures Sum(s + [x]) == Sum(s) + x
  {
    assert (s + [x])[..|s|] == s;
  }

  /** The sum of two sequences laid end to end is the sum of their sums. */
  lemma {:induction false} SumConcat(p: seq<nat>, q: seq<nat>)
    ensures Sum(p + q) == Sum(p) + Sum(q)
  {
    if q == [] {
      assert p + q == p;
    } else {
      var init := q[..|q| - 1];
      SumConcat(p, init);
      assert (p + q)[..|p + q| - 1] == p + init;
      assert (p + q)[|p + q| - 1] == q[|q| - 1];
    }
  }

  /** The sum does not depend on the order of the values: the contract may add
      the revealed values in any order and reach the same total. */
  lemma {:induction false} SumPermutation(a: seq<nat>, b: seq<nat>)
    requires multiset(a) == multiset(b)
    ensures Sum(a) == Sum(b)
    decreases |a|
  {
    if a == [] {
      assert |b| == |multiset(b)| == 0;
    } else {
      var init, x := a[..|a| - 1], a[|a| - 1];
      assert init + a[|a|..] == init;
      MultisetRemove(a, |a| - 1);
      assert x in multiset(b);
      var k :| 0 <= k < |b| && b[k] == x;
      var front, back := b[..k], b[k + 1..];
      MultisetRemove(b, k);
      SumPermutation(init, front + back);
      SumConcat(front + [x], back);
      SumConcat(front, [x]);
      SumConcat(front, back);
      assert b == front + [x] + back;
      assert Sum([x]) == x by { assert [x][..0] == []; }
    }
  }

  /** Every value between `lo` and `hi` puts their sum between `|s| * lo` and `|s| * hi`. */
  lemma {:induction false} SumBounds(s: seq<nat>, lo: nat, hi: nat)
    requires forall i :: 0 <= i < |s| ==> lo <= s[i] <= hi
    ensures |s| * lo <= Sum(s) <= |s| * hi
  {
    if s != [] {
      var init := s[..|s| - 1];
      SumBounds(init, lo, hi);
      assert |s| * lo == |init| * lo + lo;
      assert |s| * hi == |init| * hi + hi;
    }
  }

  /** Floor division by `n` keeps a value that lies between `n * lo` and `n * hi`
      between `lo` and `hi`. */
  lemma DivBounds(a: nat, n: nat, lo: nat, hi: nat)
    requires n > 0 && n * lo <= a <= n * hi
    ensures lo <= a / n <= hi
  {
    var q := a / n;
    assert n * q <= a < n * q + n;
    assert n * q + n == n * (q + 1);
    MulCancel(n, q, hi);
    MulCancel(n, lo, q + 1);
  }

  /** Multiplying by a positive factor preserves order both ways. */
  lemma MulCancel(n: nat, x: nat, y: nat)
    requires n > 0
    ensures n * x <= n * y ==> x <= y
    ensures n * x < n * y ==> x < y
  {
    assert n * x - n * y == n * (x - y);
  }

  /** The average never leaves the range of the values averaged: the consensus
      lies between the lowest and the highest revealed appraisal. */
  lemma AverageBounds(s: seq<nat>, lo: nat, hi: nat)
    requires |s| > 0
    requires forall i :: 0 <= i < |s| ==> lo <= s[i] <= hi
    ensures lo <= Average(s) <= hi
  {
    SumBounds(s, lo, hi);
    DivBounds(Sum(s), |s|, lo, hi);
  }

  /** When every validator reveals the same value, that value is the consensus. */
  lemma AverageOfAgreement(s: seq<nat>, x: nat)
    requires |s| > 0
    requires forall i :: 0 <= i < |s| ==> s[i] == x
    ensures Average(s) == x
  {
    AverageBounds(s, x, x);
  }

  /* ---------------------------------------------------------------------
     Reputation tiers
     --------------------------------------------------------------------- */

  /** How far a revealed value lies from the consensus. */
  function Distance(value: nat, average: nat): nat
  {
    if value >= average then value - average else average - value
  }

  /** The three reputation scores a validator can hold. */
  predicate IsTier(t: nat)
  {
    t == 10 || t == 5 || t == 1
  }

  /** The reputation a validator earns for `value` against consensus `average`:
      10 within a quarter of the average, 5 within half of it, 1 beyond that,
      and 1 whenever the average is zero. */
  function Tier(value: nat, average: nat): (t: nat)
    ensures IsTier(t)
    ensures average == 0 ==> t == 1
  {
    if average == 0 then 1
    else if 4 * Distance(value, average) <= average then 10
    else if 2 * Distance(value, average) <= average then 5
    else 1
  }

  /** The tier rule read as the deviation ratio |value - average| / average:
      a ratio of at most 0.25 earns 10, one in (0.25, 0.5] earns 5, one above
      0.5 earns 1; a ratio exactly on a boundary takes the better tier. */
  lemma TierMatchesRatio(value: nat, average: nat)
    requires average > 0
    ensures var ratio := (Distance(value, average) as real) / (average as real);
      && (Tier(value, average) == 10 <==> ratio <= 0.25)
      && (Tier(value, average) == 5 <==> 0.25 < ratio <= 0.5)
      && (Tier(value, average) == 1 <==> 0.5 < ratio)
  {
    var d, a := Distance(value, average) as real, average as real;
    RatioAtMost(d, a, 0.25);
    RatioAtMost(d, a, 0.5);
  }

  /** For a positive `a`, `d / a <= c` exactly when `d <= c * a`. */
  lemma RatioAtMost(d: real, a: real, c: real)
    requires a > 0.0
    ensures d / a <= c <==> d <= c * a
  {
    var ratio := d / a;
    assert ratio * a == d;
    if ratio <= c {
      assert c * a - ratio * a == (c - ratio) * a;
    } else {
      assert ratio * a - c * a == (ratio - c) * a;
    }
  }

  /** A value at least as close to consensus never earns a lower tier. */
  lemma TierMonotone(v1: nat, v2: nat, average: nat)
    requires Distance(v1, average) <= Distance(v2, average)
    ensures Tier(v1, average) >= Tier(v2, average)
  {
  }

  /* ---------------------------------------------------------------------
     Revealed values, in submission order
     --------------------------------------------------------------------- */

  /** The evaluators, in submission order, whose value has been revealed. */
  function Reporters(evaluators: seq<Address>, decoded: map<Address, nat>): (rs: seq<Address>)
    ensures forall v :: v in rs ==> v in decoded && v in evaluators
    ensures |rs| <= |evaluators|
  {
    if evaluators == [] then []
    else
      var init := Reporters(evaluators[..|evaluators| - 1], decoded);
      var last := evaluators[|evaluators| - 1];
      if last in decoded then init + [last] else init
  }

  /** The revealed values, in submission order: the values the consensus is
      averaged over. */
  function RevealedValues(evaluators: seq<Address>, decoded: map<Address, nat>): seq<nat>
  {
    if evaluators == [] then []
    else
      var init := RevealedValues(evaluators[..|evaluators| - 1], decoded);
      var last := evaluators[|evaluators| - 1];
      if last in decoded then init + [decoded[last]] else init
  }

  /** The revealed values are the values of the reporters, position by position. */
  lemma {:induction false} RevealedValuesOfReporters(evaluators: seq<Address>, decoded: map<Address, nat>)
    ensures var rs := Reporters(evaluators, decoded);
      |RevealedValues(evaluators, decoded)| == |rs|
      && forall j :: 0 <= j < |rs| ==> RevealedValues(evaluators, decoded)[j] == decoded[rs[j]]
  {
    if evaluators != [] {
      RevealedValuesOfReporters(evaluators[..|evaluators| - 1], decoded);
    }
  }

  /** Looking at one more evaluator adds that evaluator's revealed value, if any. */
  lemma RevealedValuesStep(evaluators: seq<Address>, decoded: map<Address, nat>, i: nat)
    requires i < |evaluators|
    ensures var v := evaluators[i];
      RevealedValues(evaluators[..i + 1], decoded)
        == RevealedValues(evaluators[..i], decoded) + (if v in decoded then [decoded[v]] else [])
  {
    assert evaluators[..i + 1][..i] == evaluators[..i];
  }

  /** Over distinct evaluators, the reporters are exactly the revealed evaluators,
      each once. */
  lemma {:induction false} ReportersExact(evaluators: seq<Address>, decoded: map<Address, nat>)
    requires NoDup(evaluators)
    ensures NoDup(Reporters(evaluators, decoded))
    ensures Elems(Reporters(evaluators, decoded)) == decoded.Keys * Elems(evaluators)
  {
    if evaluators != [] {
      var init, last := evaluators[..|evaluators| - 1], evaluators[|evaluators| - 1];
      assert NoDup(init);
      ReportersExact(init, decoded);
      assert Elems(evaluators) == Elems(init) + {last} by {
        assert evaluators == init + [last];
      }
      assert last !in init by {
        forall k | 0 <= k < |init| ensures init[k] != last {
          assert evaluators[k] == init[k];
        }
      }
      var rs := Reporters(init, decoded);
      if last in decoded {
        assert last !in rs;
        var rs' := rs + [last];
        forall p, q | 0 <= p < q < |rs'| ensures rs'[p] != rs'[q] {
          if q == |rs| { assert rs'[p] == rs[p] && rs[p] in rs; }
        }
        assert Elems(rs') == Elems(rs) + {last};
      }
    }
  }

  /** When every revealed validator is an evaluator and no evaluator repeats, the
      revealed values count exactly the revealed validators. */
  lemma RevealedCount(evaluators: seq<Address>, decoded: map<Address, nat>)
    requires NoDup(evaluators) && decoded.Keys <= Elems(evaluators)
    ensures |RevealedValues(evaluators, decoded)| == |decoded|
    ensures |RevealedValues(evaluators, decoded)| == 0 <==> decoded == map[]
  {
    var rs := Reporters(evaluators, decoded);
    ReportersExact(evaluators, decoded);
    RevealedValuesOfReporters(evaluators, decoded);
    NoDupCard(rs);
    assert Elems(rs) == decoded.Keys;
  }

  /** The consensus valuation of a record: the sum of the revealed values,
      divided (rounding down) by the number of validators whose value was revealed. */
  function Consensus(evaluators: seq<Address>, decoded: map<Address, nat>): nat
    requires decoded != map[]
  {
    Sum(RevealedValues(evaluators, decoded)) / |decoded|
  }

  /** Over a consistent record the consensus is the average of the revealed
      values, and so lies between the lowest and the highest of them. */
  lemma ConsensusBounds(evaluators: seq<Address>, decoded: map<Address, nat>, lo: nat, hi: nat)
    requires NoDup(evaluators) && decoded.Keys <= Elems(evaluators) && decoded != map[]
    requires forall v :: v in decoded ==> lo <= decoded[v] <= hi
    ensures |RevealedValues(evaluators, decoded)| == |decoded|
    ensures Consensus(evaluators, decoded) == Average(RevealedValues(evaluators, decoded))
    ensures lo <= Consensus(evaluators, decoded) <= hi
  {
    RevealedCount(evaluators, decoded);
    RevealedValuesOfReporters(evaluators, decoded);
    var values := RevealedValues(evaluators, decoded);
    var rs := Reporters(evaluators, decoded);
    forall j | 0 <= j < |values| ensures lo <= values[j] <= hi {
      assert values[j] == decoded[rs[j]];
    }
    AverageBounds(values, lo, hi);
  }

  /* ---------------------------------------------------------------------
     Reveal: ingesting admin-asserted plaintext values
     --------------------------------------------------------------------- */

  /** The revealed values after writing `values[i]` for `validators[i]` in order;
      a later pair for the same validator overwrites an earlier one. */
  function ApplyReveals(decoded: map<Address, nat>, validators: seq<Address>, values: seq<nat>): map<Address, nat>
    requires |validators| == |values|
  {
    if validators == [] then decoded
    else
      ApplyReveals(decoded, validators[..|validators| - 1], values[..|values| - 1])
        [validators[|validators| - 1] := values[|values| - 1]]
  }

  /** Revealing adds exactly the listed validators to the revealed set. */
  lemma {:induction false} RevealKeys(decoded: map<Address, nat>, validators: seq<Address>, values: seq<nat>)
    requires |validators| == |values|
    ensures ApplyReveals(decoded, validators, values).Keys == decoded.Keys + Elems(validators)
  {
    if validators != [] {
      var n := |validators|;
      RevealKeys(decoded, validators[..n - 1], values[..n - 1]);
      assert validators == validators[..n - 1] + [validators[n - 1]];
      assert Elems(validators) == Elems(validators[..n - 1]) + {validators[n - 1]};
    }
  }

  /** The value recorded for a listed validator is the one paired with its last
      occurrence in the list. */
  lemma {:induction false} RevealLastWins(decoded: map<Address, nat>, validators: seq<Address>, values: seq<nat>, i: nat)
    requires |validators| == |values| && i < |validators|
    requires forall j :: i < j < |validators| ==> validators[j] != validators[i]
    ensures var r := ApplyReveals(decoded, validators, values);
      validators[i] in r && r[validators[i]] == values[i]
  {
    var n := |validators|;
    if i < n - 1 {
      RevealLastWins(decoded, validators[..n - 1], values[..n - 1], i);
    }
  }

  /** A validator not in the list keeps whatever was revealed for it before. */
  lemma {:induction false} RevealKeepsOthers(decoded: map<Address, nat>, validators: seq<Address>, values: seq<nat>, v: Address)
    requires |validators| == |values| && v !in validators
    ensures var r := ApplyReveals(decoded, validators, values);
      (v in r <==> v in decoded) && (v in decoded ==> r[v] == decoded[v])
  {
    var n := |validators|;
    if n > 0 {
      assert v != validators[n - 1];
      assert v !in validators[..n - 1];
      RevealKeepsOthers(decoded, validators[..n - 1], values[..n - 1], v);
    }
  }

  /** A revealed value for an address that is not an evaluator is not averaged. */
  lemma {:induction false} RevealedValuesIgnoresOthers(evaluators: seq<Address>, decoded: map<Address, nat>, v: Address, x: nat)
    requires v !in evaluators
    ensures RevealedValues(evaluators, decoded[v := x]) == RevealedValues(evaluators, decoded)
  {
    if evaluators != [] {
      var init := evaluators[..|evaluators| - 1];
      assert evaluators == init + [evaluators[|evaluators| - 1]];
      RevealedValuesIgnoresOthers(init, decoded, v, x);
    }
  }

  /** Revealing the value of one more evaluator adds exactly that value to the
      values averaged, wherever the evaluator stands in submission order. */
  lemma {:induction false} RevealedValuesInsert(evaluators: seq<Address>, decoded: map<Address, nat>, v: Address, x: nat)
    requires NoDup(evaluators) && v in evaluators && v !in decoded
    ensures multiset(RevealedValues(evaluators, decoded[v := x]))
      == multiset(RevealedValues(evaluators, decoded)) + multiset{x}
  {
    var init, last := evaluators[..|evaluators| - 1], evaluators[|evaluators| - 1];
    assert evaluators == init + [last];
    assert NoDup(init);
    if last == v {
      assert v !in init by {
        forall k | 0 <= k < |init| ensures init[k] != v {
          assert evaluators[k] == init[k];
        }
      }
      RevealedValuesIgnoresOthers(init, decoded, v, x);
    } else {
      RevealedValuesInsert(init, decoded, v, x);
    }
  }

  /** A first reveal of distinct evaluators makes the values averaged exactly
      the revealed values, in some order. */
  lemma {:induction false} RevealedValuesOfReveal(evaluators: seq<Address>, validators: seq<Address>, values: seq<nat>)
    requires NoDup(evaluators) && NoDup(validators) && Elems(validators) <= Elems(evaluators)
    requires |validators| == |values|
    ensures multiset(RevealedValues(evaluators, ApplyReveals(map[], validators, values))) == multiset(values)
  {
    if validators == [] {
      RevealedCount(evaluators, map[]);
    } else {
      var n := |validators|;
      var vs, xs := validators[..n - 1], values[..n - 1];
      var v, x := validators[n - 1], values[n - 1];
      assert validators == vs + [v] && values == xs + [x];
      assert NoDup(vs);
      assert v !in vs by {
        forall k | 0 <= k < |vs| ensures vs[k] != v {
          assert validators[k] == vs[k];
        }
      }
      RevealedValuesOfReveal(evaluators, vs, xs);
      RevealKeys(map[], vs, xs);
      assert v in Elems(validators);
      RevealedValuesInsert(evaluators, ApplyReveals(map[], vs, xs), v, x);
      assert multiset(values) == multiset(xs) + multiset{x};
    }
  }

  /** The consensus after a first reveal of distinct evaluators is the floor
      mean of the revealed values, whatever order the evaluators bid in. */
  lemma ConsensusOfReveal(evaluators: seq<Address>, validators: seq<Address>, values: seq<nat>)
    requires NoDup(evaluators) && NoDup(validators) && Elems(validators) <= Elems(evaluators)
    requires |validators| == |values| > 0
    ensures ApplyReveals(map[], validators, values) != map[]
    ensures Consensus(evaluators, ApplyReveals(map[], validators, values)) == Average(values)
  {
    var decoded := ApplyReveals(map[], validators, values);
    RevealKeys(map[], validators, values);
    assert validators[0] in decoded;
    RevealedValuesOfReveal(evaluators, validators, values);
    RevealedCount(evaluators, decoded);
    var revealed := RevealedValues(evaluators, decoded);
    assert |revealed| == |multiset(revealed)| == |multiset(values)| == |values|;
    SumPermutation(revealed, values);
  }

  /* ---------------------------------------------------------------------
     The rating pass
     --------------------------------------------------------------------- */

  /** The reputation table after a rating pass: every revealed validator's entry
      is overwritten with its tier against `average`; every other entry stays. */
  function Rate(ratings: map<Address, nat>, decoded: map<Address, nat>, average: nat): map<Address, nat>
  {
    map v | v in ratings.Keys + decoded.Keys :: if v in decoded then Tier(decoded[v], average) else ratings[v]
  }

  /** The rating pass as calculateRatings performs it: the evaluators are walked
      in submission order and each one whose value was revealed has its entry
      overwritten with its tier. */
  function RatingsAfter(ratings: map<Address, nat>, evaluators: seq<Address>,
                        decoded: map<Address, nat>, average: nat): map<Address, nat>
    decreases |evaluators|
  {
    if evaluators == [] then ratings
    else
      var last := evaluators[|evaluators| - 1];
      var before := RatingsAfter(ratings, evaluators[..|evaluators| - 1], decoded, average);
      if last in decoded then before[last := Tier(decoded[last], average)] else before
  }

  /** Entry by entry: a validator is rated by the pass exactly when it is among
      the evaluators and its value was revealed; every other entry is untouched. */
  lemma {:induction false} RatingsAfterEntries(ratings: map<Address, nat>, evaluators: seq<Address>,
                                               decoded: map<Address, nat>, average: nat, v: Address)
    ensures var r := RatingsAfter(ratings, evaluators, decoded, average);
      && (v in r <==> v in ratings || (v in decoded && v in evaluators))
      && (v in r ==> r[v] == if v in decoded && v in evaluators then Tier(decoded[v], average) else ratings[v])
  {
    if evaluators != [] {
      var init := evaluators[..|evaluators| - 1];
      assert evaluators == init + [evaluators[|evaluators| - 1]];
      RatingsAfterEntries(ratings, init, decoded, average, v);
    }
  }

  /** When every revealed validator is an evaluator, the ordered pass produces
      the table `Rate` describes: the order of the walk does not matter. */
  lemma RatingsAfterIsRate(ratings: map<Address, nat>, evaluators: seq<Address>,
                           decoded: map<Address, nat>, average: nat)
    requires decoded.Keys <= Elems(evaluators)
    ensures RatingsAfter(ratings, evaluators, decoded, average) == Rate(ratings, decoded, average)
  {
    var r := RatingsAfter(ratings, evaluators, decoded, average);
    forall v
      ensures v in r <==> v in ratings.Keys + decoded.Keys
      ensures v in r ==> r[v] == if v in decoded then Tier(decoded[v], average) else ratings[v]
    {
      RatingsAfterEntries(ratings, evaluators, decoded, average, v);
    }
  }

  /** The rating pass gives every revealed evaluator one of the three tiers, so a
      table that held only tiers before holds only tiers after. */
  lemma RatingsAfterTiers(ratings: map<Address, nat>, evaluators: seq<Address>,
                          decoded: map<Address, nat>, average: nat)
    requires forall v :: v in ratings ==> IsTier(ratings[v])
    ensures var r := RatingsAfter(ratings, evaluators, decoded, average);
      && (forall v :: v in decoded && v in evaluators ==> v in r && IsTier(r[v]))
      && (forall v :: v in r ==> IsTier(r[v]))
  {
    var r := RatingsAfter(ratings, evaluators, decoded, average);
    forall v
      ensures v in decoded && v in evaluators ==> v in r && IsTier(r[v])
      ensures v in r ==> IsTier(r[v])
    {
      RatingsAfterEntries(ratings, evaluators, decoded, average, v);
    }
  }
}
