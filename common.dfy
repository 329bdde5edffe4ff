/** Optional values: the model's stand-in for JavaScript's `undefined` / `null`. */
module Wrappers {

  datatype Option<+T> = None | Some(value: T)
}

/** The one piece of JavaScript string behaviour the call flow depends on. */
module JsText {

  /** `s.includes(sub)`: `sub` occurs in `s` at some offset (the empty string occurs everywhere). */
  predicate Includes(s: string, sub: string)
    decreases |s|
  {
    |sub| <= |s| && (s[..|sub|] == sub || (|s| > 0 && Includes(s[1..], sub)))
  }

  /** Every string includes itself. */
  lemma IncludesItself(s: string)
    ensures Includes(s, s)
  {
    assert s[..|s|] == s;
  }

  /** A string in which the first character of `sub` never occurs cannot include `sub`. */
  lemma {:induction false} NotIncludedWithoutFirstChar(s: string, sub: string)
    requires |sub| > 0
    requires forall i :: 0 <= i < |s| ==> s[i] != sub[0]
    ensures !Includes(s, sub)
    decreases |s|
  {
    if |sub| <= |s| {
      assert s[..|sub|][0] == s[0];
      NotIncludedWithoutFirstChar(s[1..], sub);
    }
  }
}
