/**
 * The two list transformations the registry and the checklist editor are
 * built from: JavaScript's `array.filter(keep)` and
 * `array.map(x => matches(x) ? update(x) : x)`.
 */
module SeqOps {

  /** `s.filter(keep)`: the elements of `s` that satisfy `keep`, in their original order. */
  function Filter<T(==, !new)>(s: seq<T>, keep: T -> bool): (r: seq<T>)
    ensures |r| <= |s|
    ensures forall x :: multiset(r)[x] == if keep(x) then multiset(s)[x] else 0
    ensures forall x :: x in r <==> x in s && keep(x)
  {
    if s == [] then []
    else
      assert s == [s[0]] + s[1..];
      (if keep(s[0]) then [s[0]] else []) + Filter(s[1..], keep)
  }

  /** Filtering distributes over concatenation, so `Filter` keeps the relative order of what it keeps. */
  lemma {:induction false} FilterConcat<T(!new)>(a: seq<T>, b: seq<T>, keep: T -> bool)
    ensures Filter(a + b, keep) == Filter(a, keep) + Filter(b, keep)
  {
    if a == [] {
      assert a + b == b;
    } else {
      assert (a + b)[1..] == a[1..] + b;
      FilterConcat(a[1..], b, keep);
    }
  }

  /** A filter that rejects nothing returns its input unchanged. */
  lemma {:induction false} FilterKeepsAll<T(!new)>(s: seq<T>, keep: T -> bool)
    requires forall i :: 0 <= i < |s| ==> keep(s[i])
    ensures Filter(s, keep) == s
  {
    if s != [] {
      FilterKeepsAll(s[1..], keep);
    }
  }

  /** `s.map(x => matches(x) ? update(x) : x)`: every matching element is updated in place, the others are kept. */
  function ReplaceWhere<T>(s: seq<T>, matches: T -> bool, update: T -> T): (r: seq<T>)
    ensures |r| == |s|
    ensures forall i :: 0 <= i < |s| ==> r[i] == if matches(s[i]) then update(s[i]) else s[i]
  {
    if s == [] then []
    else [if matches(s[0]) then update(s[0]) else s[0]] + ReplaceWhere(s[1..], matches, update)
  }

  /** When nothing matches, `ReplaceWhere` returns its input unchanged. */
  lemma ReplaceWhereNoMatch<T>(s: seq<T>, matches: T -> bool, update: T -> T)
    requires forall i :: 0 <= i < |s| ==> !matches(s[i])
    ensures ReplaceWhere(s, matches, update) == s
  {
    assert forall i :: 0 <= i < |s| ==> ReplaceWhere(s, matches, update)[i] == s[i];
  }
}
