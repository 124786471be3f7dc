/**
 * The Python list operations the player record uses: `x in s`,
 * `s.remove(x)` (delete the first occurrence) and the guarded
 * `if x not in s: s.append(x)` that keeps a list free of duplicates.
 */
module Lists {

  /** No element occurs twice. */
  predicate NoDuplicates<T(==)>(s: seq<T>)
  {
    forall i, j :: 0 <= i < j < |s| ==> s[i] != s[j]
  }

  /** The set of elements of `s`. */
  function Elements<T>(s: seq<T>): set<T>
  {
    set x | x in s
  }

  /** A list without duplicates has as many distinct elements as it has entries. */
  lemma {:induction false} NoDuplicatesCardinality<T>(s: seq<T>)
    requires NoDuplicates(s)
    ensures |Elements(s)| == |s|
  {
    if s != [] {
      var t := s[1..];
      assert NoDuplicates(t);
      NoDuplicatesCardinality(t);
      assert Elements(s) == Elements(t) + {s[0]};
      assert s[0] !in Elements(t);
    }
  }

  /** The position of the first occurrence of `x` in `s`. */
  function IndexOf<T(==)>(s: seq<T>, x: T): (i: nat)
    requires x in s
    ensures i < |s| && s[i] == x
    ensures forall j :: 0 <= j < i ==> s[j] != x
  {
    if s[0] == x then 0 else 1 + IndexOf(s[1..], x)
  }

  /** `s.remove(x)` on a list that holds `x`: `s` without its first occurrence of `x`. */
  function RemoveFirst<T(==)>(s: seq<T>, x: T): (r: seq<T>)
    requires x in s
    ensures |r| == |s| - 1
    ensures multiset(r) == multiset(s) - multiset{x}
    ensures exists i :: 0 <= i < |s| && s[i] == x && (forall j :: 0 <= j < i ==> s[j] != x) && r == s[..i] + s[i + 1..]
  {
    var i := IndexOf(s, x);
    assert s == s[..i] + [x] + s[i + 1..];
    s[..i] + s[i + 1..]
  }

  /** Appending `x` and then removing `x` again restores the multiset of the list. */
  lemma AppendThenRemoveSameMultiset<T>(s: seq<T>, x: T)
    ensures multiset(RemoveFirst(s + [x], x)) == multiset(s)
  {
  }

  /** When `x` was not yet in the list, appending and removing it restores the exact list. */
  lemma AppendThenRemoveFresh<T>(s: seq<T>, x: T)
    requires x !in s
    ensures RemoveFirst(s + [x], x) == s
  {
    var t := s + [x];
    var i := IndexOf(t, x);
    assert i == |s|;
    assert t[..i] == s;
  }

  /** When `x` was already in the list, removal takes the earlier copy and the new one stays at the end. */
  lemma {:induction false} AppendThenRemovePresent<T>(s: seq<T>, x: T)
    requires x in s
    ensures RemoveFirst(s + [x], x) == RemoveFirst(s, x) + [x]
  {
    var t := s + [x];
    var i := IndexOf(t, x);
    var k := IndexOf(s, x);
    assert t[k] == x;
    assert i == k;
    assert t[..i] == s[..k];
    assert t[i + 1..] == s[k + 1..] + [x];
  }

  /** `if x not in s: s.append(x)`. */
  function AddUnique<T(==,!new)>(s: seq<T>, x: T): (r: seq<T>)
    ensures x in r
    ensures forall y :: y in r <==> y in s || y == x
    ensures x in s ==> r == s
    ensures x !in s ==> r == s + [x]
    ensures NoDuplicates(s) ==> NoDuplicates(r)
  {
    if x in s then s else s + [x]
  }

  /** Adding the same element twice is the same as adding it once. */
  lemma AddUniqueIdempotent<T(!new)>(s: seq<T>, x: T)
    ensures AddUnique(AddUnique(s, x), x) == AddUnique(s, x)
  {
  }
}
