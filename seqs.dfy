/** Sequence searches used by the registry, the catalogue and the wizard. */
module Seqs {
  import opened Wrappers

  /** Index of the first element satisfying `p`, or -1 (`Array.prototype.findIndex`). */
  function FindIndex<T>(s: seq<T>, p: T -> bool): (k: int)
    ensures -1 <= k < |s|
    ensures k >= 0 ==> p(s[k])
    ensures k >= 0 ==> forall j :: 0 <= j < k ==> !p(s[j])
    ensures k < 0 <==> forall j :: 0 <= j < |s| ==> !p(s[j])
  {
    if s == [] then -1
    else if p(s[0]) then 0
    else
      var k := FindIndex(s[1..], p);
      if k < 0 then -1 else k + 1
  }

  /** The first element satisfying `p`, or `None` (`Array.prototype.find`). */
  function Find<T>(s: seq<T>, p: T -> bool): (r: Option<T>)
    ensures r.None? <==> forall j :: 0 <= j < |s| ==> !p(s[j])
    ensures r.Some? ==> r.value in s && p(r.value)
  {
    var k := FindIndex(s, p);
    if k < 0 then None else Some(s[k])
  }

  /** `Find` returns the element at the first matching position. */
  lemma FindIsFirst<T>(s: seq<T>, p: T -> bool, i: int)
    requires 0 <= i < |s| && p(s[i])
    requires forall j :: 0 <= j < i ==> !p(s[j])
    ensures Find(s, p) == Some(s[i])
  {
  }
}
