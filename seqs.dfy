/** Searching sequences the way `Array.prototype.findIndex` and `find` do. */
module Seqs {
  import opened Wrappers

  /** The first index whose element satisfies `p`, or -1 when there is none
      (`findIndex`). */
  function FirstIndex<T>(s: seq<T>, p: T -> bool): (i: int)
    ensures -1 <= i < |s|
    ensures i == -1 <==> forall k :: 0 <= k < |s| ==> !p(s[k])
    ensures 0 <= i ==> p(s[i]) && forall k :: 0 <= k < i ==> !p(s[k])
  {
    if s == [] then -1
    else if p(s[0]) then 0
    else
      var j := FirstIndex(s[1..], p);
      if j == -1 then -1 else j + 1
  }

  /** The first element satisfying `p` (`find`); `None` plays `undefined`. */
  function Find<T>(s: seq<T>, p: T -> bool): (r: Option<T>)
    ensures r.None? <==> forall k :: 0 <= k < |s| ==> !p(s[k])
    ensures r.Some? ==> r.value == s[FirstIndex(s, p)] && p(r.value)
  {
    var i := FirstIndex(s, p);
    if i == -1 then None else Some(s[i])
  }
}
