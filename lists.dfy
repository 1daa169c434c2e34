/** The two Python list operations the negotiator relies on: a filtering list comprehension
    (`[x for x in s if keep(x)]`) and the in-place `list.sort(key=..., reverse=True)`. */
module Lists {

  /** `a` is `b` with some elements dropped and the remaining ones kept in their order. */
  ghost predicate IsSubsequence<T>(a: seq<T>, b: seq<T>)
    decreases |b|
  {
    if |a| == 0 then true
    else if |b| == 0 then false
    else (a[0] == b[0] && IsSubsequence(a[1..], b[1..])) || IsSubsequence(a, b[1..])
  }

  /** Dropping elements twice is dropping elements once. */
  lemma {:induction false} SubsequenceTransitive<T>(a: seq<T>, b: seq<T>, c: seq<T>)
    requires IsSubsequence(a, b) && IsSubsequence(b, c)
    ensures IsSubsequence(a, c)
    decreases |c|
  {
    if |a| == 0 {
    } else if |b| == 0 {
    } else if |c| == 0 {
    } else if IsSubsequence(b, c[1..]) {
      SubsequenceTransitive(a, b, c[1..]);
    } else {
      assert b[0] == c[0] && IsSubsequence(b[1..], c[1..]);
      if a[0] == b[0] && IsSubsequence(a[1..], b[1..]) {
        SubsequenceTransitive(a[1..], b[1..], c[1..]);
      } else {
        SubsequenceTransitive(a, b[1..], c[1..]);
      }
    }
  }

  /** The list comprehension `[x for x in s if keep(x)]`: exactly the elements of `s` that
      satisfy `keep`, each as often as it occurs in `s`, in the order of `s`. */
  function Filter<T>(s: seq<T>, keep: T -> bool): (r: seq<T>)
    ensures forall x | x in r :: x in s && keep(x)
    ensures multiset(r) <= multiset(s)  // implied by the clauses around it; stated for callers
    ensures forall x | x in s && keep(x) :: multiset(r)[x] == multiset(s)[x]
    ensures IsSubsequence(r, s)
    decreases |s|
  {
    if |s| == 0 then []
    else
      var rest := Filter(s[1..], keep);
      assert s == [s[0]] + s[1..];
      if keep(s[0]) then
        assert ([s[0]] + rest)[1..] == rest;
        [s[0]] + rest
      else
        rest
  }

  /** `s` is ordered from the largest `key` to the smallest. */
  ghost predicate NonIncreasing<T>(s: seq<T>, key: T -> real) {
    forall i, j :: 0 <= i < j < |s| ==> key(s[i]) >= key(s[j])
  }

  /** `list.sort(key=key, reverse=True)`: rearranges `a` in place so that it is a permutation of
      its old contents ordered by non-increasing `key`. (Python's method returns `None`; the
      caller models that return value.) */
  method SortByKeyDescending<T>(a: array<T>, key: T -> real)
    modifies a
    ensures NonIncreasing(a[..], key)
    ensures multiset(a[..]) == old(multiset(a[..]))
  {
    var i := 0;
    while i < a.Length
      invariant 0 <= i <= a.Length
      invariant NonIncreasing(a[..i], key)
      invariant multiset(a[..]) == old(multiset(a[..]))
    {
      InsertIntoSortedPrefix(a, i, key);
      i := i + 1;
    }
    assert a[..a.Length] == a[..];
  }

  /** One insertion-sort step: moves `a[i]` left past every element with a smaller key, so that
      the ordered prefix `a[..i]` grows to `a[..i + 1]`. */
  method InsertIntoSortedPrefix<T>(a: array<T>, i: nat, key: T -> real)
    requires i < a.Length
    requires NonIncreasing(a[..i], key)
    modifies a
    ensures NonIncreasing(a[..i + 1], key)
    ensures multiset(a[..]) == old(multiset(a[..]))
  {
    var j := i;
    while j > 0 && key(a[j - 1]) < key(a[j])
      invariant 0 <= j <= i
      invariant forall k, l :: 0 <= k < l <= i && k != j && l != j ==> key(a[k]) >= key(a[l])
      invariant forall k, l :: 0 <= k < j < l <= i ==> key(a[k]) >= key(a[l])
      invariant forall l :: j < l <= i ==> key(a[j]) >= key(a[l])
      invariant multiset(a[..]) == old(multiset(a[..]))
    {
      SwapWithPrevious(a, j);
      j := j - 1;
    }
  }

  /** Exchanges `a[j - 1]` and `a[j]`, leaving every other element where it was. */
  method SwapWithPrevious<T>(a: array<T>, j: nat)
    requires 0 < j < a.Length
    modifies a
    ensures a[..] == old(a[..])[j - 1 := old(a[j])][j := old(a[j - 1])]
    ensures multiset(a[..]) == old(multiset(a[..]))
  {
    a[j - 1], a[j] := a[j], a[j - 1];
  }
}
