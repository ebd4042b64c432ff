/** A value that may be absent (`null` or `undefined` in the source). */
module Wrappers {

  datatype Option<+T> = None | Some(value: T)
}

/** The JavaScript values the components pass around, and the few
    language operations they rely on: truthiness, `a || b`, reading a
    property of a value, and `String.prototype.trim`. */
module JsValues {

  import opened Wrappers

  /** A JSON-like JavaScript value. `Undefined` is also what a missing
      property reads as; an object whose field holds `Undefined` is what
      an object literal `{ k: undefined }` builds. */
  datatype Json =
    | Undefined
    | Null
    | Bool(b: bool)
    | Num(n: int)
    | Str(s: string)
    | Arr(items: seq<Json>)
    | Obj(fields: map<string, Json>)

  /** JavaScript truthiness: `undefined`, `null`, `false`, `0` and `""` are
      falsy; every array and every object is truthy. */
  predicate IsTruthy(v: Json) {
    match v
    case Undefined => false
    case Null => false
    case Bool(b) => b
    case Num(n) => n != 0
    case Str(s) => s != ""
    case Arr(_) => true
    case Obj(_) => true
  }

  /** `a || b` */
  function Or(a: Json, b: Json): (r: Json)
    ensures IsTruthy(a) ==> r == a
    ensures !IsTruthy(a) ==> r == b
  {
    if IsTruthy(a) then a else b
  }

  /** `v[key]` for a value that is neither `null` nor `undefined` (reading a
      property of those throws, so callers must exclude them). Arrays, strings,
      numbers and booleans have none of the keys these components read. */
  function Get(v: Json, key: string): (r: Json)
    requires !v.Undefined? && !v.Null?
    ensures v.Obj? && key in v.fields ==> r == v.fields[key]
    ensures !(v.Obj? && key in v.fields) ==> r == Undefined
  {
    if v.Obj? && key in v.fields then v.fields[key] else Undefined
  }

  /** `!!v` for a value that is `undefined`/`null` or a string. */
  predicate IsTruthyText(v: Option<string>) {
    v.Some? && v.value != ""
  }

  /** `m[key]` on a dictionary-like object. */
  function Lookup<V>(m: map<string, V>, key: string): (r: Option<V>)
    ensures r.Some? <==> key in m
    ensures key in m ==> r.value == m[key]
  {
    if key in m then Some(m[key]) else None
  }

  /** The characters ECMAScript's `trim` removes: WhiteSpace (TAB, VT, FF,
      SP, NBSP, ZWNBSP and the Zs category) and LineTerminator (LF, CR, LS,
      PS). */
  predicate IsJsWhitespace(c: char) {
    || c == '\t' || c == '\n' || c == '\U{000B}' || c == '\U{000C}' || c == '\r'
    || c == ' ' || c == '\U{00A0}' || c == '\U{1680}'
    || ('\U{2000}' <= c <= '\U{200A}')
    || c == '\U{2028}' || c == '\U{2029}' || c == '\U{202F}' || c == '\U{205F}'
    || c == '\U{3000}' || c == '\U{FEFF}'
  }

  predicate AllWhitespace(s: string) {
    forall k :: 0 <= k < |s| ==> IsJsWhitespace(s[k])
  }

  /** How many whitespace characters `s` starts with. */
  function LeadingWhitespace(s: string): (k: nat)
    ensures k <= |s| && AllWhitespace(s[..k])
    ensures k < |s| ==> !IsJsWhitespace(s[k])
  {
    if |s| > 0 && IsJsWhitespace(s[0]) then
      var k := 1 + LeadingWhitespace(s[1..]);
      assert s[..k] == [s[0]] + s[1..][..k - 1];
      k
    else
      0
  }

  /** Where the whitespace `s` ends with begins. */
  function TrailingWhitespaceStart(s: string): (k: nat)
    ensures k <= |s| && AllWhitespace(s[k..])
    ensures k > 0 ==> !IsJsWhitespace(s[k - 1])
  {
    if |s| > 0 && IsJsWhitespace(s[|s| - 1]) then
      var k := TrailingWhitespaceStart(s[..|s| - 1]);
      assert s[..|s| - 1][k..] == s[k..|s| - 1];
      assert s[k..] == s[k..|s| - 1] + [s[|s| - 1]];
      k
    else
      |s|
  }

  /** Drops the leading whitespace. */
  function TrimStart(s: string): (r: string)
    ensures r != [] ==> !IsJsWhitespace(r[0])
  {
    s[LeadingWhitespace(s)..]
  }

  /** Drops the trailing whitespace. */
  function TrimEnd(s: string): (r: string)
    ensures r != [] ==> !IsJsWhitespace(r[|r| - 1])
  {
    s[..TrailingWhitespaceStart(s)]
  }

  /** `s.trim()`: the slice `s[i..j]` that remains once the whitespace at
      both ends is removed; everything cut off is whitespace and the slice
      neither starts nor ends with whitespace. */
  function Trim(s: string): (r: string)
    ensures exists i, j :: 0 <= i <= j <= |s| && r == s[i..j]
                && AllWhitespace(s[..i]) && AllWhitespace(s[j..])
    ensures r != [] ==> !IsJsWhitespace(r[0]) && !IsJsWhitespace(r[|r| - 1])
  {
    var i := LeadingWhitespace(s);
    var t := s[i..];
    var k := TrailingWhitespaceStart(t);
    var r := t[..k];
    assert r == s[i..i + k];
    assert s[i + k..] == t[k..];
    assert r != [] ==> r[0] == t[0];
    r
  }

  lemma {:induction false} TrimStartOfNonBlank(s: string)
    requires s == [] || !IsJsWhitespace(s[0])
    ensures TrimStart(s) == s
  {
  }

  lemma {:induction false} TrimEndOfNonBlank(s: string)
    requires s == [] || !IsJsWhitespace(s[|s| - 1])
    ensures TrimEnd(s) == s
  {
  }

  lemma TrimOfNonBlank(s: string)
    requires s == [] || (!IsJsWhitespace(s[0]) && !IsJsWhitespace(s[|s| - 1]))
    ensures Trim(s) == s
  {
    TrimStartOfNonBlank(s);
    TrimEndOfNonBlank(s);
  }

  /** Trimming twice is trimming once. */
  lemma {:induction false} TrimIdempotent(s: string)
    ensures Trim(Trim(s)) == Trim(s)
  {
    var r := Trim(s);
    if r != [] {
      TrimStartOfNonBlank(r);
      TrimEndOfNonBlank(r);
    }
  }

  /** Only whitespace trims to the empty string. */
  lemma {:induction false} TrimEmptyIffBlank(s: string)
    ensures Trim(s) == [] <==> AllWhitespace(s)
  {
  }
}
