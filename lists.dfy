/**
 * The three array operations the client screens use: `find`/`findIndex`,
 * `filter` by value and `filter` by position. Each is defined recursively and
 * its meaning is stated in its contract or in a lemma beside it.
 */
module Lists {
  import opened Wrappers

  /** Position of the first element satisfying `f` (JavaScript `findIndex`, None for -1). */
  function FindIndex<T>(s: seq<T>, f: T -> bool): (r: Option<nat>)
    ensures r.Some? ==> r.value < |s| && f(s[r.value])
    ensures r.Some? ==> forall j :: 0 <= j < r.value ==> !f(s[j])
    ensures r.None? <==> forall j :: 0 <= j < |s| ==> !f(s[j])
    decreases |s|
  {
    if |s| == 0 then None
    else if f(s[0]) then Some(0)
    else match FindIndex(s[1..], f)
      case None => None
      case Some(k) => Some(k + 1)
  }

  /** JavaScript `filter(f)`: the elements satisfying `f`, in their order. */
  function Filter<T>(s: seq<T>, f: T -> bool): (r: seq<T>)
    ensures |r| <= |s|
    ensures forall i :: 0 <= i < |r| ==> r[i] in s && f(r[i])
    ensures forall i :: 0 <= i < |s| && f(s[i]) ==> s[i] in r
    decreases |s|
  {
    if |s| == 0 then [] else (if f(s[0]) then [s[0]] else []) + Filter(s[1..], f)
  }

  /** `r` is `s` with some elements dropped and the rest in their original order. */
  ghost predicate IsSubsequence<T>(r: seq<T>, s: seq<T>)
    decreases |s|
  {
    if |r| == 0 then true
    else if |s| == 0 then false
    else (r[0] == s[0] && IsSubsequence(r[1..], s[1..])) || IsSubsequence(r, s[1..])
  }

  lemma {:induction false} FilterIsSubsequence<T>(s: seq<T>, f: T -> bool)
    ensures IsSubsequence(Filter(s, f), s)
    decreases |s|
  {
    if |s| > 0 {
      FilterIsSubsequence(s[1..], f);
      var rest := Filter(s[1..], f);
      if f(s[0]) {
        assert Filter(s, f) == [s[0]] + rest;
        assert ([s[0]] + rest)[1..] == rest;
      } else {
        assert Filter(s, f) == rest;
        SubsequenceDropFirst(rest, s);
      }
    }
  }

  lemma {:induction false} SubsequenceDropFirst<T>(r: seq<T>, s: seq<T>)
    requires |s| > 0 && IsSubsequence(r, s[1..])
    ensures IsSubsequence(r, s)
  {
  }

  /** Filtering a concatenation filters each part: the relative order of what is kept never changes. */
  lemma {:induction false} FilterAppend<T>(a: seq<T>, b: seq<T>, f: T -> bool)
    ensures Filter(a + b, f) == Filter(a, f) + Filter(b, f)
    decreases |a|
  {
    if |a| == 0 {
      assert a + b == b;
    } else {
      assert (a + b)[0] == a[0];
      assert (a + b)[1..] == a[1..] + b;
      FilterAppend(a[1..], b, f);
    }
  }

  /** JavaScript `filter((_, i) => i !== k)`: drop the element at position `k`, if any. */
  function WithoutIndex<T>(s: seq<T>, k: int): (r: seq<T>)
    ensures |r| == if 0 <= k < |s| then |s| - 1 else |s|
    decreases |s|
  {
    if |s| == 0 then [] else (if k == 0 then [] else [s[0]]) + WithoutIndex(s[1..], k - 1)
  }

  /** Dropping position `k` is slicing around it when `k` is in range and nothing otherwise. */
  lemma {:induction false} WithoutIndexSlices<T>(s: seq<T>, k: int)
    ensures WithoutIndex(s, k) == if 0 <= k < |s| then s[..k] + s[k + 1..] else s
    decreases |s|
  {
    if |s| > 0 {
      WithoutIndexSlices(s[1..], k - 1);
      if k == 0 {
        assert s[..0] + s[1..] == s[1..];
      } else if 0 < k < |s| {
        assert s[1..][..k - 1] == s[1..k];
        assert s[1..][k..] == s[k + 1..];
        assert [s[0]] + (s[1..k] + s[k + 1..]) == s[..k] + s[k + 1..];
      } else {
        assert [s[0]] + s[1..] == s;
      }
    }
  }
}
