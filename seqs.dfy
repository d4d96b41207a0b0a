/**
 * The JavaScript array methods the core is written with (`filter`, `find`,
 * `findIndex`), as functions over sequences, with the facts the rest of the
 * model needs about them.
 */
module Seqs {
  import opened Wrappers

  /** `s.filter(p)`: the elements that satisfy `p`, in their original order. */
  function Filter<T(!new)>(p: T -> bool, s: seq<T>): (r: seq<T>)
    ensures |r| <= |s|
    ensures forall x :: x in r <==> x in s && p(x)
  {
    if s == [] then [] else (if p(s[0]) then [s[0]] else []) + Filter(p, s[1..])
  }

  /** Filtering commutes with concatenation, so the order of the kept elements is the original one. */
  lemma {:induction false} FilterAppend<T(!new)>(p: T -> bool, a: seq<T>, b: seq<T>)
    ensures Filter(p, a + b) == Filter(p, a) + Filter(p, b)
  {
    if a == [] {
      assert a + b == b;
    } else {
      assert (a + b)[1..] == a[1..] + b;
      FilterAppend(p, a[1..], b);
      var head := if p(a[0]) then [a[0]] else [];
      assert Filter(p, a + b) == head + (Filter(p, a[1..]) + Filter(p, b));
    }
  }

  /** `s.findIndex(p)`: the first index whose element satisfies `p`, or -1. */
  function FindIndex<T>(p: T -> bool, s: seq<T>): (k: int)
    ensures -1 <= k < |s|
    ensures k == -1 <==> forall j :: 0 <= j < |s| ==> !p(s[j])
    ensures k >= 0 ==> p(s[k]) && forall j :: 0 <= j < k ==> !p(s[j])
  {
    if s == [] then -1
    else if p(s[0]) then 0
    else
      var k := FindIndex(p, s[1..]);
      assert forall j :: 1 <= j < |s| ==> s[j] == s[1..][j - 1];
      if k == -1 then -1 else k + 1
  }

  /** `s.find(p)`: the first element that satisfies `p`, if any. */
  function Find<T(!new)>(p: T -> bool, s: seq<T>): (r: Option<T>)
    ensures r.None? <==> forall x :: x in s ==> !p(x)
    ensures r.Some? ==> r.value in s && p(r.value)
  {
    if s == [] then None
    else if p(s[0]) then Some(s[0])
    else Find(p, s[1..])
  }

  /** The conjunction of two tests. */
  function Both<T>(p: T -> bool, q: T -> bool): T -> bool
  {
    x => p(x) && q(x)
  }

  /** Finding after filtering finds the first element that passes both tests. */
  lemma {:induction false} FindAfterFilter<T(!new)>(keep: T -> bool, hit: T -> bool, s: seq<T>)
    ensures Find(hit, Filter(keep, s)) ==
              var k := FindIndex(Both(keep, hit), s);
              if k == -1 then None else Some(s[k])
  {
    if s != [] {
      FindAfterFilter(keep, hit, s[1..]);
      var rest := Filter(keep, s[1..]);
      var k := FindIndex(Both(keep, hit), s[1..]);
      assert k >= 0 ==> s[k + 1] == s[1..][k];
      if keep(s[0]) {
        assert Filter(keep, s) == [s[0]] + rest;
        assert ([s[0]] + rest)[1..] == rest;
      } else {
        assert Filter(keep, s) == rest;
      }
    }
  }

  /** Elements that fail the test, put in front, only shift the index found. */
  lemma FindIndexSkips<T>(p: T -> bool, before: seq<T>, rest: seq<T>)
    requires forall j :: 0 <= j < |before| ==> !p(before[j])
    ensures var k := FindIndex(p, rest);
            FindIndex(p, before + rest) == if k == -1 then -1 else |before| + k
  {
    var all := before + rest;
    var k := FindIndex(p, rest);
    assert forall j :: 0 <= j < |rest| ==> all[|before| + j] == rest[j];
    assert forall j :: 0 <= j < |before| ==> all[j] == before[j];
    if k >= 0 {
      assert p(all[|before| + k]);
    }
  }

  /** Two searches that test corresponding elements alike stop at the same index. */
  lemma FindIndexPointwise<T, U>(p: T -> bool, s: seq<T>, q: U -> bool, t: seq<U>)
    requires |s| == |t|
    requires forall j :: 0 <= j < |s| ==> p(s[j]) == q(t[j])
    ensures FindIndex(p, s) == FindIndex(q, t)
  {
  }
}
