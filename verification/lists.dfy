/**
 * The JavaScript array operations the page and the store are built from
 * (`slice(0, k)`, `findIndex`, `filter`, and a `reduce` keeping the first
 * maximum), on `seq`.
 */
module Lists {

  /** `s.substring(0, k)` and `s.slice(0, k)` for a non-negative `k`. */
  function Take<T>(s: seq<T>, k: nat): (r: seq<T>)
    ensures |r| == if k < |s| then k else |s|
    ensures r == s[..|r|]
  {
    if k < |s| then s[..k] else s
  }

  /** `s.slice(0, k)`: a negative `k` counts from the end. */
  function SliceTo<T>(s: seq<T>, k: int): (r: seq<T>)
    ensures 0 <= k <= |s| ==> r == s[..k]
    ensures |s| < k ==> r == s
    ensures k < 0 && -k <= |s| ==> r == s[..|s| + k]
    ensures k < 0 && |s| < -k ==> r == []
  {
    if k < 0 then (if |s| + k < 0 then [] else s[..|s| + k])
    else if k <= |s| then s[..k] else s
  }

  /** `s.findIndex(p)`: the lowest index whose element satisfies `p`, or -1. */
  function FindIndex<T>(s: seq<T>, p: T -> bool): (r: int)
    ensures -1 <= r < |s|
    ensures r == -1 <==> forall i :: 0 <= i < |s| ==> !p(s[i])
    ensures r >= 0 ==> p(s[r]) && forall i :: 0 <= i < r ==> !p(s[i])
  {
    if |s| == 0 then -1
    else if p(s[0]) then 0
    else
      var k := FindIndex(s[1..], p);
      if k == -1 then -1 else k + 1
  }

  /** `s.filter(p)`: the elements satisfying `p`, in their order. */
  function Filter<T>(s: seq<T>, p: T -> bool): (r: seq<T>)
    ensures |r| <= |s|
    ensures forall i :: 0 <= i < |r| ==> r[i] in s && p(r[i])
    ensures forall i :: 0 <= i < |s| && p(s[i]) ==> s[i] in r
  {
    if |s| == 0 then []
    else
      var rest := Filter(s[1..], p);
      assert forall i :: 1 <= i < |s| ==> s[i] == s[1..][i - 1];
      if p(s[0]) then [s[0]] + rest else rest
  }

  /** Filtering a concatenation filters each part in place: the kept elements
      stay in their order, and each occurrence is kept or dropped on its own. */
  lemma {:induction false} FilterAppend<T>(s: seq<T>, t: seq<T>, p: T -> bool)
    ensures Filter(s + t, p) == Filter(s, p) + Filter(t, p)
    decreases |s|
  {
    if |s| == 0 {
      assert s + t == t;
    } else {
      assert (s + t)[1..] == s[1..] + t;
      FilterAppend(s[1..], t, p);
    }
  }

  /** Each value occurs in the result as often as in `s` when it satisfies
      `p`, and not at all otherwise. */
  lemma {:induction false} FilterMultiplicity<T>(s: seq<T>, p: T -> bool, x: T)
    ensures multiset(Filter(s, p))[x] == if p(x) then multiset(s)[x] else 0
    decreases |s|
  {
    if |s| > 0 {
      FilterMultiplicity(s[1..], p, x);
      assert s == [s[0]] + s[1..];
    }
  }

  /** The list around one element: that element survives exactly when it
      satisfies `p`, and the elements before and after it are filtered in
      place. */
  lemma FilterAround<T>(a: seq<T>, x: T, b: seq<T>, p: T -> bool)
    ensures Filter(a + [x] + b, p) == Filter(a, p) + (if p(x) then [x] else []) + Filter(b, p)
  {
    var single: seq<T> := if p(x) then [x] else [];
    assert [x][1..] == [];
    assert Filter([x], p) == single;
    FilterAppend(a, [x], p);
    FilterAppend(a + [x], b, p);
  }

  /** Filtering keeps every element exactly when all satisfy `p`. */
  lemma {:induction false} FilterKeepsAll<T>(s: seq<T>, p: T -> bool)
    ensures Filter(s, p) == s <==> forall i :: 0 <= i < |s| ==> p(s[i])
  {
    if |s| > 0 {
      FilterKeepsAll(s[1..], p);
      if !p(s[0]) {
        assert |Filter(s, p)| <= |s[1..]| < |s|;
      }
    }
  }

  /** `s.reduce((best, x) => x > best ? x : best)` on indices: the first
      position holding the greatest value; a later equal value does not
      displace it. */
  function FirstMaxIndex(xs: seq<int>): (r: nat)
    requires |xs| > 0
    ensures r < |xs|
    ensures forall j :: 0 <= j < |xs| ==> xs[j] <= xs[r]
    ensures forall j :: 0 <= j < r ==> xs[j] < xs[r]
  {
    if |xs| == 1 then 0
    else
      var best := FirstMaxIndex(xs[..|xs| - 1]);
      if xs[|xs| - 1] > xs[best] then |xs| - 1 else best
  }
}
