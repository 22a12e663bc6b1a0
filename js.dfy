// The few pieces of the JavaScript runtime the handlers and the form rely on:
// parsed JSON values, property access, `typeof … === "string"`, `String.prototype.trim`,
// and the numeric conversions `Number(x)` / `Number#toString`.

module Js {

  datatype Option<T> = None | Some(value: T)

  /** A value produced by `JSON.parse`. A number is kept as the literal it was written as;
      what `Number()` makes of it is up to the `Runtime`. */
  datatype JsValue =
    | JString(s: string)
    | JNumber(literal: string)
    | JBool(b: bool)
    | JNull
    | JArray(elems: seq<JsValue>)
    | JObject(props: map<string, JsValue>)

  /** The runtime conversions that are not modelled bit for bit (IEEE doubles, the JSON grammar).
      Every property of the model holds for every choice of these functions.
      - `parse(text)`: `JSON.parse(text)`, `None` when it throws a SyntaxError;
      - `toFinite(v)`: `Number(v)` when `Number.isFinite` of it holds, `None` for NaN and ±Infinity;
      - `render(x)`: `x.toString()` for a finite number `x`. */
  datatype Runtime = Runtime(
    parse: string -> Option<JsValue>,
    toFinite: JsValue -> Option<real>,
    render: real -> string)

  /** `JSON.parse(text ?? "{}")`: an absent request body is read as the empty object. */
  function ParseBody(rt: Runtime, text: Option<string>): Option<JsValue>
  {
    match text
    case None => Some(JObject(map[]))
    case Some(t) => if t == "{}" then Some(JObject(map[])) else rt.parse(t)
  }

  /** `v.key` on a value that is not null (reading a property of `null` throws instead).
      `None` stands for `undefined`. */
  function Property(v: JsValue, key: string): (r: Option<JsValue>)
    requires !v.JNull?
    ensures r.Some? <==> v.JObject? && key in v.props
    ensures r.Some? ==> r.value == v.props[key]
  {
    match v
    case JObject(m) => if key in m then Some(m[key]) else None
    case _ => None
  }

  /** `Number.isFinite(Number(v))`, yielding the number; `Number(undefined)` is NaN. */
  function FiniteNumber(rt: Runtime, v: Option<JsValue>): Option<real>
  {
    match v
    case None => None
    case Some(x) => rt.toFinite(x)
  }

  /** WhiteSpace and LineTerminator code points of ECMAScript, the set `trim` removes. */
  predicate IsWhitespace(c: char) {
    var n := c as int;
    (0x09 <= n <= 0x0D) || n == 0x20 || n == 0xA0 || n == 0x1680
    || (0x2000 <= n <= 0x200A) || n == 0x2028 || n == 0x2029 || n == 0x202F
    || n == 0x205F || n == 0x3000 || n == 0xFEFF
  }

  /** A string made only of whitespace (the empty string included). */
  predicate Blank(s: string) {
    forall i :: 0 <= i < |s| ==> IsWhitespace(s[i])
  }

  /** Removes the longest whitespace prefix. */
  function TrimStart(s: string): string {
    if |s| > 0 && IsWhitespace(s[0]) then TrimStart(s[1..]) else s
  }

  /** Removes the longest whitespace suffix. */
  function TrimEnd(s: string): string {
    if |s| > 0 && IsWhitespace(s[|s| - 1]) then TrimEnd(s[..|s| - 1]) else s
  }

  /** `TrimStart` keeps a suffix, drops only whitespace, and stops at the first
      non-whitespace character. */
  lemma {:induction false} TrimStartSpec(s: string)
    ensures |TrimStart(s)| <= |s| && TrimStart(s) == s[|s| - |TrimStart(s)|..]
    ensures Blank(s[..|s| - |TrimStart(s)|])
    ensures TrimStart(s) == [] || !IsWhitespace(TrimStart(s)[0])
  {
    if |s| > 0 && IsWhitespace(s[0]) {
      var t := TrimStart(s[1..]);
      TrimStartSpec(s[1..]);
      assert s[1..][..|s| - 1 - |t|] == s[1..|s| - |t|];
      forall i | 0 <= i < |s| - |t| ensures IsWhitespace(s[i]) {
        if i > 0 {
          assert s[1..|s| - |t|][i - 1] == s[i];
        }
      }
    }
  }

  /** `TrimEnd` keeps a prefix, drops only whitespace, and stops at the last
      non-whitespace character. */
  lemma {:induction false} TrimEndSpec(s: string)
    ensures |TrimEnd(s)| <= |s| && TrimEnd(s) == s[..|TrimEnd(s)|]
    ensures Blank(s[|TrimEnd(s)|..])
    ensures TrimEnd(s) == [] || !IsWhitespace(TrimEnd(s)[|TrimEnd(s)| - 1])
  {
    if |s| > 0 && IsWhitespace(s[|s| - 1]) {
      var t := TrimEnd(s[..|s| - 1]);
      TrimEndSpec(s[..|s| - 1]);
      assert s[..|s| - 1][|t|..] == s[|t|..|s| - 1];
      forall i | |t| <= i < |s| ensures IsWhitespace(s[i]) {
        if i < |s| - 1 {
          assert s[|t|..|s| - 1][i - |t|] == s[i];
        }
      }
    }
  }

  /** `String.prototype.trim`: never longer than its input, and neither starts nor ends with
      whitespace. */
  function Trim(s: string): (r: string)
    ensures |r| <= |s|
    ensures r == [] || (!IsWhitespace(r[0]) && !IsWhitespace(r[|r| - 1]))
  {
    TrimStartSpec(s);
    TrimEndSpec(TrimStart(s));
    TrimEnd(TrimStart(s))
  }

  /** `Trim` keeps a contiguous middle part of the string that neither starts nor ends with
      whitespace, and drops only whitespace around it. */
  lemma TrimSpec(s: string)
    ensures var r, lo := Trim(s), |s| - |TrimStart(s)|;
      && 0 <= lo && lo + |r| <= |s|
      && r == s[lo..lo + |r|]
      && Blank(s[..lo]) && Blank(s[lo + |r|..])
      && (r == [] || (!IsWhitespace(r[0]) && !IsWhitespace(r[|r| - 1])))
  {
    TrimSlice(s);
    TrimMargins(s);
  }

  /** The part `Trim` keeps is the slice that starts where the whitespace prefix ends. */
  lemma TrimSlice(s: string)
    ensures var r, lo := Trim(s), |s| - |TrimStart(s)|;
      0 <= lo && lo + |r| <= |s| && r == s[lo..lo + |r|]
  {
    var t := TrimStart(s);
    TrimStartSpec(s);
    TrimEndSpec(t);
    var lo := |s| - |t|;
    assert Trim(s) == t[..|Trim(s)|];
    assert t[..|Trim(s)|] == s[lo..lo + |Trim(s)|];
  }

  /** What `Trim` drops on either side of the kept slice is whitespace only. */
  lemma TrimMargins(s: string)
    ensures var r, lo := Trim(s), |s| - |TrimStart(s)|;
      0 <= lo && lo + |r| <= |s| && Blank(s[..lo]) && Blank(s[lo + |r|..])
  {
    var t := TrimStart(s);
    TrimStartSpec(s);
    TrimEndSpec(t);
    var lo := |s| - |t|;
    assert t[|Trim(s)|..] == s[lo + |Trim(s)|..];
  }

  /** `Trim` leaves the empty string exactly for blank input: the `trim() === ""` tests of the
      handlers are blankness tests. */
  lemma TrimEmptyIffBlank(s: string)
    ensures Trim(s) == [] <==> Blank(s)
  {
    TrimSpec(s);
    var lo := |s| - |TrimStart(s)|;
    if Trim(s) == [] {
      assert s == s[..lo] + s[lo..];
      forall i | 0 <= i < |s| ensures IsWhitespace(s[i]) {
        if i < lo {
          assert s[..lo][i] == s[i];
        } else {
          assert s[lo..][i - lo] == s[i];
        }
      }
    }
  }

  /** `trim` is idempotent. */
  lemma TrimIdempotent(s: string)
    ensures Trim(Trim(s)) == Trim(s)
  {
    var r := Trim(s);
    TrimSpec(s);
    if r != [] {
      assert TrimStart(r) == r;
      assert TrimEnd(r) == r;
    }
  }

  /** `typeof v === "string" ? v.trim() : ""`: non-empty exactly for a string that is not
      blank, and then that string trimmed. */
  function TrimmedString(v: Option<JsValue>): (r: string)
    ensures r != [] <==> NonBlankString(v)
    ensures r != [] ==> r == Trim(v.value.s)
  {
    match v
    case Some(JString(s)) =>
      TrimEmptyIffBlank(s);
      Trim(s)
    case _ => ""
  }

  /** `typeof v === "string" && v.trim() !== ""`. */
  predicate NonBlankString(v: Option<JsValue>) {
    v.Some? && v.value.JString? && !Blank(v.value.s)
  }
}
