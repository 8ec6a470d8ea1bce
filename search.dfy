/** Left-to-right, first-match-wins search over a sequence. */
module Search {

  /** The index of the leftmost element of `s` that satisfies `p`, or -1 when
      no element does. */
  function FirstIndex<T>(s: seq<T>, p: T -> bool): (r: int)
    ensures -1 <= r < |s|
    ensures r == -1 <==> forall j :: 0 <= j < |s| ==> !p(s[j])
    ensures 0 <= r ==> p(s[r]) && forall j :: 0 <= j < r ==> !p(s[j])
  {
    if |s| == 0 then -1
    else if p(s[0]) then 0
    else
      var r := FirstIndex(s[1..], p);
      if r == -1 then -1 else r + 1
  }
}
