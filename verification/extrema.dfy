/**
 Smallest and largest element of a non-empty sequence of numbers: what
 underscore's `_.min` and `_.max` return for an array of plain numbers.
 */
module Extrema {

  /** The smallest element of `s`. */
  function Min(s: seq<real>): (m: real)
    requires |s| > 0
    ensures m in s
    ensures forall k :: 0 <= k < |s| ==> m <= s[k]
  {
    if |s| == 1 then s[0]
    else
      var rest := Min(s[1..]);
      assert forall k :: 1 <= k < |s| ==> s[k] == s[1..][k - 1];
      if s[0] <= rest then s[0] else rest
  }

  /** The largest element of `s`. */
  function Max(s: seq<real>): (m: real)
    requires |s| > 0
    ensures m in s
    ensures forall k :: 0 <= k < |s| ==> s[k] <= m
  {
    if |s| == 1 then s[0]
    else
      var rest := Max(s[1..]);
      assert forall k :: 1 <= k < |s| ==> s[k] == s[1..][k - 1];
      if rest <= s[0] then s[0] else rest
  }

  /** The minimum is unique: any element no larger than every element is `Min`. */
  lemma MinIsUnique(s: seq<real>, lo: real)
    requires lo in s
    requires forall k :: 0 <= k < |s| ==> lo <= s[k]
    ensures Min(s) == lo
  {
  }

  /** The maximum is unique: any element no smaller than every element is `Max`. */
  lemma MaxIsUnique(s: seq<real>, hi: real)
    requires hi in s
    requires forall k :: 0 <= k < |s| ==> s[k] <= hi
    ensures Max(s) == hi
  {
  }

  /** In a non-empty sequence the minimum never exceeds the maximum. */
  lemma MinAtMostMax(s: seq<real>)
    requires |s| > 0
    ensures Min(s) <= Max(s)
  {
  }
}
