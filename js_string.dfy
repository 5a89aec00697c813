/**
 * The part of JavaScript's `String.prototype.indexOf` that the user schema
 * relies on: the one-argument form, giving the index of the first occurrence
 * of a search string, or -1. Strings are `seq<char>`, sequences of Unicode
 * scalar values, so positions count scalar values, not UTF-16 code units.
 */
module JsString {

  /** `s.indexOf(p)`: the first position at which `p` occurs in `s`, or -1. */
  function IndexOf(s: string, p: string): (r: int)
    ensures r == -1 || 0 <= r <= |s| - |p|
    ensures 0 <= r ==> p <= s[r..]
    ensures 0 <= r ==> forall j :: 0 <= j < r ==> !(p <= s[j..])
    ensures r == -1 ==> forall j :: 0 <= j <= |s| ==> !(p <= s[j..])
    decreases |s|
  {
    if p <= s then 0
    else if s == [] then -1
    else
      var k := IndexOf(s[1..], p);
      assert forall j :: 1 <= j <= |s| ==> s[1..][j - 1..] == s[j..];
      if k < 0 then -1 else k + 1
  }

  /** `s.indexOf(p) === 0` holds exactly when `p` is a prefix of `s`. */
  lemma IndexOfZeroIffPrefix(s: string, p: string)
    ensures IndexOf(s, p) == 0 <==> p <= s
  {
  }
}
