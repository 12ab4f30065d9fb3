/** Types shared by every part of the model. */
module Common {

  /** The identity of a Java class (`Class<?>`), abstracted to a number. */
  type TypeId = nat

  /** A reference that may be `null`. */
  datatype Option<+T> = None | Some(value: T)

  /** The outcome of a `void` Java method that may throw: `Fail` carries the exception. */
  datatype Outcome<+E> = Pass | Fail(error: E)

  /** The elements of a sequence, as a set. */
  function Elements(s: seq<TypeId>): set<TypeId>
  {
    set x | x in s
  }

  /** No element occurs twice: the head is not in the tail, and so on down. */
  predicate NoDuplicates<T(==)>(s: seq<T>)
  {
    s == [] || (s[0] !in s[1..] && NoDuplicates(s[1..]))
  }

  /** A sequence whose positions hold pairwise different elements has no duplicates. */
  lemma {:induction false} PairwiseDistinct<T>(s: seq<T>)
    requires forall i, j :: 0 <= i < j < |s| ==> s[i] != s[j]
    ensures NoDuplicates(s)
  {
    if s != [] {
      forall k | 0 <= k < |s[1..]| ensures s[1..][k] != s[0] {
        assert s[1..][k] == s[k + 1];
      }
      forall i, j | 0 <= i < j < |s[1..]| ensures s[1..][i] != s[1..][j] {
        assert s[1..][i] == s[i + 1] && s[1..][j] == s[j + 1];
      }
      PairwiseDistinct(s[1..]);
    }
  }

  /** Two positions of a duplicate-free sequence hold different elements. */
  lemma {:induction false} DistinctAt<T>(s: seq<T>, i: nat, j: nat)
    requires NoDuplicates(s) && i < j < |s|
    ensures s[i] != s[j]
  {
    if i == 0 {
      assert s[j] == s[1..][j - 1];
    } else {
      DistinctAt(s[1..], i - 1, j - 1);
    }
  }
}
