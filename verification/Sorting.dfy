/** The in-place insertion sort with early break that FetchDue and Jobs both use. */
module Sorting {

  /** `after` is the strict part of a total preorder: "not after" is transitive. */
  ghost predicate Preorder<T(!new)>(after: (T, T) -> bool) {
    && (forall x, y :: after(x, y) ==> !after(y, x))
    && (forall x, y, z :: !after(x, y) && !after(y, z) ==> !after(x, z))
  }

  ghost predicate Sorted<T>(s: seq<T>, after: (T, T) -> bool) {
    forall i, j :: 0 <= i < j < |s| ==> !after(s[i], s[j])
  }

  /** Sorted up to `hi`, except that the element at `hole` may belong further left. */
  ghost predicate SortedButHole<T>(s: seq<T>, after: (T, T) -> bool, hi: nat, hole: nat)
    requires hi <= |s|
  {
    forall i, j :: 0 <= i < j < hi && j != hole ==> !after(s[i], s[j])
  }

  method InsertionSort<T(!new)>(a: array<T>, after: (T, T) -> bool)
    requires Preorder(after)
    modifies a
    ensures Sorted(a[..], after)
    ensures multiset(a[..]) == old(multiset(a[..]))
  {
    var i := 1;
    while i < a.Length
      invariant 1 <= i
      invariant forall p, q :: 0 <= p < q < i && q < a.Length ==> !after(a[p], a[q])
      invariant multiset(a[..]) == old(multiset(a[..]))
    {
      Insert(a, after, i);
      i := i + 1;
    }
  }

  /** Moves the element at `i` left until the element before it is not after it. */
  method Insert<T(!new)>(a: array<T>, after: (T, T) -> bool, i: nat)
    requires Preorder(after) && i < a.Length
    requires forall p, q :: 0 <= p < q < i ==> !after(a[p], a[q])
    modifies a
    ensures forall p, q :: 0 <= p < q < i + 1 ==> !after(a[p], a[q])
    ensures multiset(a[..]) == old(multiset(a[..]))
  {
    var k: nat := i;
    while k > 0
      invariant k <= i
      invariant SortedButHole(a[..], after, i + 1, k)
      invariant multiset(a[..]) == old(multiset(a[..]))
    {
      if after(a[k - 1], a[k]) {
        SwapKeepsHole(a[..], after, i + 1, k);
        a[k - 1], a[k] := a[k], a[k - 1];
        k := k - 1;
      } else {
        NoHole(a[..], after, i + 1, k);
        assert forall p, q :: 0 <= p < q < i + 1 ==> !after(a[..][p], a[..][q]);
        return;
      }
    }
    assert forall p, q :: 0 <= p < q < i + 1 ==> !after(a[..][p], a[..][q]);
  }

  lemma SwapKeepsHole<T(!new)>(s: seq<T>, after: (T, T) -> bool, hi: nat, k: nat)
    requires Preorder(after) && 0 < k < hi <= |s|
    requires SortedButHole(s, after, hi, k) && after(s[k - 1], s[k])
    ensures SortedButHole(s[k - 1 := s[k]][k := s[k - 1]], after, hi, k - 1)
  {
    var t := s[k - 1 := s[k]][k := s[k - 1]];
    forall i, j | 0 <= i < j < hi && j != k - 1
      ensures !after(t[i], t[j])
    {
      if i == k - 1 && j > k {
        assert !after(s[k], s[j]);
      } else if i == k {
        assert !after(s[k - 1], s[j]);
      } else if j == k && i < k - 1 {
        assert !after(s[i], s[k - 1]);
      }
    }
  }

  lemma NoHole<T(!new)>(s: seq<T>, after: (T, T) -> bool, hi: nat, k: nat)
    requires Preorder(after) && 0 < k < hi <= |s|
    requires SortedButHole(s, after, hi, k) && !after(s[k - 1], s[k])
    ensures forall i, j :: 0 <= i < j < hi ==> !after(s[i], s[j])
  {
    forall i | 0 <= i < k
      ensures !after(s[i], s[k])
    {
      if i < k - 1 { assert !after(s[i], s[k - 1]); }
    }
  }

  /** An element at two places has multiplicity two. */
  lemma TwiceInSeq<T>(s: seq<T>, i: nat, j: nat)
    requires i < j < |s| && s[i] == s[j]
    ensures multiset(s)[s[i]] >= 2
  {
    assert s == s[..j] + [s[j]] + s[j + 1..];
    assert s[..j][i] == s[i];
    assert s[i] in multiset(s[..j]);
  }
}
