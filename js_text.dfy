/** The small part of JavaScript's value semantics that the hotel front-end's
    components rely on: optional values, the whitespace set used by
    `String.prototype.trim` and the regex class `\s`, `trim()` itself, and the
    falsy-defaulting `x || fallback` idiom used when a record is loaded. */
module JsText {

  datatype Option<+T> = None | Some(value: T)

  /** A character of JavaScript's WhiteSpace or LineTerminator productions:
      exactly the characters `trim()` strips and the regex class `\s` matches. */
  predicate IsSpace(c: char)
  {
    || c == '\t' || c == '\n' || c == '\U{B}' || c == '\U{C}' || c == '\r'
    || c == ' ' || c == '\U{A0}' || c == '\U{1680}'
    || ('\U{2000}' <= c <= '\U{200A}')
    || c == '\U{2028}' || c == '\U{2029}' || c == '\U{202F}' || c == '\U{205F}'
    || c == '\U{3000}' || c == '\U{FEFF}'
  }

  /** Every character of `s` is whitespace (the empty string included). */
  predicate IsBlank(s: string)
  {
    forall k :: 0 <= k < |s| ==> IsSpace(s[k])
  }

  /** Drops the leading whitespace of `s`. */
  function TrimStart(s: string): (r: string)
    ensures |r| <= |s| && r == s[|s| - |r|..]
    ensures r == [] || !IsSpace(r[0])
    ensures forall k :: 0 <= k < |s| - |r| ==> IsSpace(s[k])
    decreases |s|
  {
    if s != [] && IsSpace(s[0]) then TrimStart(s[1..]) else s
  }

  /** Drops the trailing whitespace of `s`. */
  function TrimEnd(s: string): (r: string)
    ensures |r| <= |s| && r == s[..|r|]
    ensures r == [] || !IsSpace(r[|r| - 1])
    ensures forall k :: |r| <= k < |s| ==> IsSpace(s[k])
    decreases |s|
  {
    if s != [] && IsSpace(s[|s| - 1]) then TrimEnd(s[..|s| - 1]) else s
  }

  /** `s.trim()`: the result neither starts nor ends with whitespace, and it
      is empty exactly when `s` is blank. That it is the piece of `s` left
      after cutting whitespace from both ends is `TrimCutsBlanks`. */
  function Trim(s: string): (r: string)
    ensures |r| <= |s|
    ensures r == [] || (!IsSpace(r[0]) && !IsSpace(r[|r| - 1]))
    ensures r == "" <==> IsBlank(s)
  {
    TrimEnd(TrimStart(s))
  }

  /** `s.trim()` is `s` with its surrounding whitespace removed: the piece of
      `s` that starts after its `i` leading whitespace characters, with only
      whitespace before it and only whitespace after it. */
  lemma TrimCutsBlanks(s: string)
    ensures var r := Trim(s); var i := |s| - |TrimStart(s)|;
      && 0 <= i && i + |r| <= |s| && r == s[i..i + |r|]
      && (forall k :: 0 <= k < i ==> IsSpace(s[k]))
      && (forall k :: i + |r| <= k < |s| ==> IsSpace(s[k]))
  {
    var t := TrimStart(s);
    var r := TrimEnd(t);
    assert Trim(s) == r;
    BlankTailShifts(s, |s| - |t|, |r|);
  }

  /** Cutting `i` characters off the front of `s` and keeping `n` of the
      rest leaves `s[i..i + n]`; whitespace after that piece in the cut string
      is whitespace after it in `s`. */
  lemma BlankTailShifts(s: string, i: nat, n: nat)
    requires i + n <= |s|
    requires forall k :: n <= k < |s| - i ==> IsSpace(s[i..][k])
    ensures s[i..][..n] == s[i..i + n]
    ensures forall k :: i + n <= k < |s| ==> IsSpace(s[k])
  {
    forall k | i + n <= k < |s| ensures IsSpace(s[k]) {
      assert s[k] == s[i..][k - i];
    }
  }

  /** A string that JavaScript treats as truthy: present and non-empty. */
  predicate TextTruthy(v: Option<string>)
  {
    v.Some? && v.value != ""
  }

  /** `v || fallback` for a field that is a string or missing. */
  function OrText(v: Option<string>, fallback: string): string
  {
    if TextTruthy(v) then v.value else fallback
  }

  /** `v || []` for a field that is an array or missing; every array,
      the empty one included, is truthy in JavaScript. */
  function OrList(v: Option<seq<string>>): seq<string>
  {
    if v.Some? then v.value else []
  }

  /** A string-or-missing value placed in a template literal or joined with
      `+`: a missing one reads "undefined". */
  function Interpolated(v: Option<string>): (r: string)
    ensures v.None? ==> r == "undefined"
    ensures v.Some? ==> r == v.value
  {
    if v.Some? then v.value else "undefined"
  }

  /** The value of a number-typed form field: the text an input produces, or a
      number loaded from the server. Fractional numbers are not modelled. */
  datatype Value = Text(text: string) | Number(num: int)

  predicate ValueTruthy(v: Option<Value>)
  {
    match v
    case None => false
    case Some(Text(t)) => t != ""
    case Some(Number(n)) => n != 0
  }

  /** `v || fallback` for a number-typed field that may be missing. */
  function OrValue(v: Option<Value>, fallback: Value): Value
  {
    if ValueTruthy(v) then v.value else fallback
  }
}
