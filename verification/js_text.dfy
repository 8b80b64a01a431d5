/**
 This module models the two pieces of JavaScript string semantics the route
 validators rely on: truthiness of an optional string field and
 `String.prototype.trim`.
 */
module JsText {
  import opened Wrappers

  /** The code points `trim` removes: the WhiteSpace and LineTerminator
      productions of ECMA-262. */
  predicate IsJsWhitespace(ch: char) {
    || ch == '\t' || ch == '\n' || ch == '\U{000B}' || ch == '\U{000C}'
    || ch == '\r' || ch == ' ' || ch == '\U{00A0}' || ch == '\U{1680}'
    || ('\U{2000}' <= ch <= '\U{200A}')
    || ch == '\U{2028}' || ch == '\U{2029}' || ch == '\U{202F}'
    || ch == '\U{205F}' || ch == '\U{3000}' || ch == '\U{FEFF}'
  }

  predicate AllWhitespace(s: string) {
    forall i :: 0 <= i < |s| ==> IsJsWhitespace(s[i])
  }

  /** Drops the leading whitespace of `s`. */
  function TrimStart(s: string): (r: string)
    ensures |r| <= |s| && r == s[|s| - |r|..]
    ensures AllWhitespace(s[..|s| - |r|])
    ensures r == [] || !IsJsWhitespace(r[0])
  {
    if |s| > 0 && IsJsWhitespace(s[0]) then
      var r := TrimStart(s[1..]);
      assert s[..|s| - |r|] == [s[0]] + s[1..][..|s| - 1 - |r|];
      r
    else
      s
  }

  /** Drops the trailing whitespace of `s`. */
  function TrimEnd(s: string): (r: string)
    ensures |r| <= |s| && r == s[..|r|]
    ensures AllWhitespace(s[|r|..])
    ensures r == [] || !IsJsWhitespace(r[|r| - 1])
  {
    if |s| > 0 && IsJsWhitespace(s[|s| - 1]) then
      var r := TrimEnd(s[..|s| - 1]);
      assert s[|r|..] == s[..|s| - 1][|r|..] + [s[|s| - 1]];
      r
    else
      s
  }

  /** `s.trim()`: the middle part of `s` once whitespace is stripped from both ends. */
  function Trim(s: string): (r: string)
    ensures |r| <= |s|
    ensures r == [] || (!IsJsWhitespace(r[0]) && !IsJsWhitespace(r[|r| - 1]))
  {
    TrimEnd(TrimStart(s))
  }

  /** `s.trim().length === 0` holds exactly when every character of `s` is whitespace. */
  lemma {:induction false} TrimEmptyIffBlank(s: string)
    ensures |Trim(s)| == 0 <==> AllWhitespace(s)
  {
    var t := TrimStart(s);
    if |Trim(s)| == 0 {
      assert TrimEnd(t) == [];
      assert t[0..] == t;
      assert AllWhitespace(t);
      assert s[..|s| - |t|] == s;
    }
  }

  /** JavaScript truthiness of a string field: `undefined` and `""` are falsy. */
  predicate Truthy(v: Option<string>) {
    v.Some? && v.value != ""
  }

  /** `!v` is false exactly for a present, non-empty string, and every
      `Filled` field is truthy; the converse fails for blank strings. */
  lemma TruthyIsNotFalsy(v: Option<string>)
    ensures !Truthy(v) <==> v == None || v == Some("")
    ensures Filled(v) ==> Truthy(v)
    ensures Truthy(v) && AllWhitespace(v.value) ==> !Filled(v)
  {
  }

  /** A field that passes `!v || v.trim().length === 0` unrejected: it is
      present and not blank. `FilledIsTrimCheck` shows this is the trim test. */
  predicate Filled(v: Option<string>) {
    Truthy(v) && !AllWhitespace(v.value)
  }

  /** The validators' test, written with `trim` as the routes write it, is `Filled`. */
  lemma FilledIsTrimCheck(v: Option<string>)
    ensures Filled(v) <==> Truthy(v) && |Trim(v.value)| != 0
  {
    if v.Some? {
      TrimEmptyIffBlank(v.value);
    }
  }
}
