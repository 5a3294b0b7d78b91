/**
 * JavaScript's `Array.prototype.filter` and `Array.prototype.findIndex`, as used by the
 * client components and the controllers.
 */
module Seqs {

  /** `s.filter(keep)`: the elements of `s` that satisfy `keep`, in their original order. */
  function Filter<T>(s: seq<T>, keep: T -> bool): (r: seq<T>)
    ensures |r| <= |s|
    ensures forall i :: 0 <= i < |r| ==> keep(r[i]) && r[i] in s
    ensures forall i :: 0 <= i < |s| && keep(s[i]) ==> s[i] in r
  {
    if s == [] then []
    else if keep(s[0]) then [s[0]] + Filter(s[1..], keep)
    else Filter(s[1..], keep)
  }

  /**
   * Filtering commutes with concatenation. Together with the one-element case this fixes
   * `Filter` completely, and in particular says that it keeps the input's relative order.
   */
  lemma {:induction false} FilterConcat<T>(a: seq<T>, b: seq<T>, keep: T -> bool)
    ensures Filter(a + b, keep) == Filter(a, keep) + Filter(b, keep)
  {
    if a == [] {
      assert a + b == b;
    } else {
      assert (a + b)[0] == a[0];
      assert (a + b)[1..] == a[1..] + b;
      FilterConcat(a[1..], b, keep);
    }
  }

  /** Two predicates that split the elements of `s` between them split its length too. */
  lemma {:induction false} FilterSplit<T>(s: seq<T>, whole: T -> bool, left: T -> bool, right: T -> bool)
    requires forall i :: 0 <= i < |s| ==> (whole(s[i]) <==> left(s[i]) || right(s[i]))
    requires forall i :: 0 <= i < |s| ==> !(left(s[i]) && right(s[i]))
    ensures |Filter(s, whole)| == |Filter(s, left)| + |Filter(s, right)|
  {
    if s != [] {
      FilterSplit(s[1..], whole, left, right);
    }
  }

  /** Complementary predicates share out every element: the two filtered lengths add up to `|s|`. */
  lemma {:induction false} FilterComplement<T>(s: seq<T>, yes: T -> bool, no: T -> bool)
    requires forall i :: 0 <= i < |s| ==> (yes(s[i]) <==> !no(s[i]))
    ensures |Filter(s, yes)| + |Filter(s, no)| == |s|
  {
    if s != [] {
      FilterComplement(s[1..], yes, no);
    }
  }

  /**
   * `s.findIndex(p)`: the index of the first element satisfying `p`, or -1 when there is none.
   */
  function FindIndex<T>(s: seq<T>, p: T -> bool): (r: int)
    ensures -1 <= r < |s|
    ensures r == -1 <==> forall i :: 0 <= i < |s| ==> !p(s[i])
    ensures 0 <= r ==> p(s[r]) && forall i :: 0 <= i < r ==> !p(s[i])
  {
    if s == [] then -1
    else if p(s[0]) then 0
    else
      var k := FindIndex(s[1..], p);
      if k == -1 then -1 else k + 1
  }
}
