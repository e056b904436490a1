/** Types shared by both contracts: account addresses and the outcome of a
    transaction, which either takes effect or reverts with a reason. */
module Common {

  /** An account or contract address. Only its identity matters here. */
  type Address = nat

  /** A value that may be absent. */
  datatype Option<T> = None | Some(value: T)

  /** The outcome of a call that returns a value or reverts. */
  datatype Result<T, E> = Ok(value: T) | Err(error: E)

  /** The outcome of a state-changing call that returns nothing or reverts. */
  datatype Outcome<E> = Pass | Fail(error: E)

  /** Every element of `s` occurs once. */
  predicate NoDup<T(==)>(s: seq<T>)
  {
    forall i, j :: 0 <= i < j < |s| ==> s[i] != s[j]
  }

  /** The elements of `s` as a set. */
  function Elems<T>(s: seq<T>): set<T>
  {
    set x | x in s
  }

  /** Appending an element not yet present keeps the elements distinct and
      adds exactly that element. */
  lemma NoDupAppend<T>(s: seq<T>, x: T)
    requires NoDup(s) && x !in s
    ensures NoDup(s + [x])
    ensures Elems(s + [x]) == Elems(s) + {x}
  {
    assert Elems(s + [x]) == Elems(s) + {x};
  }

  /** A sequence without repetitions has as many distinct elements as entries. */
  lemma {:induction false} NoDupCard<T>(s: seq<T>)
    requires NoDup(s)
    ensures |Elems(s)| == |s|
  {
    if s != [] {
      var init, last := s[..|s| - 1], s[|s| - 1];
      assert s == init + [last];
      assert NoDup(init);
      assert last !in init by {
        forall i | 0 <= i < |init| ensures init[i] != last {
          assert s[i] == init[i];
        }
      }
      assert Elems(s) == Elems(init) + {last};
      NoDupCard(init);
    }
  }

  /** Taking out the element at `k` takes one copy of it out of the multiset. */
  lemma MultisetRemove<T>(s: seq<T>, k: nat)
    requires k < |s|
    ensures multiset(s[..k] + s[k + 1..]) == multiset(s) - multiset{s[k]}
  {
    assert s == s[..k] + [s[k]] + s[k + 1..];
  }
}
