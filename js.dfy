/** The part of JavaScript's value semantics the handlers depend on: truthiness, `Number(x)`,
    comparison with a number, `Number(x) || 0`, `Math.round`, strict equality, `.length` and
    the lower-casing used to compare a string with a lower-case word. */
module Js {
  import opened Common

  /** A value read from a parsed JSON request body or a stored document. JavaScript numbers
      are modelled exactly, as reals; NaN is a value of its own. */
  datatype JsValue =
    | Undefined
    | Null
    | Bool(b: bool)
    | Num(n: real)
    | NaN
    | Str(s: string)
    | Obj(fields: map<string, JsValue>)

  /** A plain object as the handlers see it: a request body, an update or a stored document. */
  type Document = map<string, JsValue>

  /** `doc[key]`: a property that is not there reads as undefined. */
  function Get(doc: Document, key: string): JsValue {
    if key in doc then doc[key] else Undefined
  }

  /** What `if (v)`, `!v` and `v || d` test. */
  predicate Truthy(v: JsValue) {
    match v
    case Undefined => false
    case Null => false
    case Bool(b) => b
    case Num(n) => n != 0.0
    case NaN => false
    case Str(s) => s != ""
    case Obj(_) => true
  }

  /** `Number(v)`. A plain object converts to NaN. */
  function ToNumber(v: JsValue): (r: JsValue)
    ensures r.Num? || r.NaN?
    ensures v.Num? ==> r == v
    ensures v.Undefined? || v.NaN? || v.Obj? ==> r == NaN
  {
    match v
    case Undefined => NaN
    case Null => Num(0.0)
    case Bool(b) => Num(if b then 1.0 else 0.0)
    case Num(_) => v
    case NaN => NaN
    case Str(s) => StringToNumber(s)
    case Obj(_) => NaN
  }

  /** `v < c` for a number `c`: the value is converted with `Number`, and NaN compares false. */
  predicate LessThan(v: JsValue, c: real) {
    var x := ToNumber(v);
    x.Num? && x.n < c
  }

  /** `v > c` for a number `c`. */
  predicate GreaterThan(v: JsValue, c: real) {
    var x := ToNumber(v);
    x.Num? && x.n > c
  }

  /** `v <= c` for a number `c`. */
  predicate AtMost(v: JsValue, c: real) {
    var x := ToNumber(v);
    x.Num? && x.n <= c
  }

  /** `Number(v) || 0`: NaN becomes 0 and every number, negative ones included, passes through. */
  function NumberOrZero(v: JsValue): (r: real)
    ensures ToNumber(v).NaN? ==> r == 0.0
    ensures ToNumber(v).Num? ==> r == ToNumber(v).n
  {
    var x := ToNumber(v);
    if Truthy(x) then x.n else 0.0
  }

  /** `Math.round(x)`: the nearest integer, halves rounded up. */
  function Round(x: real): (r: int)
    ensures x - 0.5 < r as real <= x + 0.5
  {
    (x + 0.5).Floor
  }

  lemma RoundOfInteger(k: int)
    ensures Round(k as real) == k
  {
  }

  /** The value the document store keeps for a `Number` path: `null`, `undefined` and the
      empty string leave the path unset, and a value that converts to NaN cannot be cast. */
  function CastNumber(v: JsValue): (r: Option<real>)
    ensures r.Some? ==> ToNumber(v) == Num(r.value)
    ensures v.Null? || v.Undefined? || v.NaN? ==> r.None?
  {
    match v
    case Undefined => None
    case Null => None
    case Str(s) =>
      if s == "" then None
      else (var x := StringToNumber(s); if x.Num? then Some(x.n) else None)
    case Bool(b) => Some(if b then 1.0 else 0.0)
    case Num(n) => Some(n)
    case NaN => None
    case Obj(_) => None
  }

  /** `a === b` for two values taken from one parsed body: two objects are never the same
      reference, and NaN is not equal to itself. */
  predicate StrictEquals(a: JsValue, b: JsValue) {
    match a
    case Obj(_) => false
    case NaN => false
    case _ => a == b
  }

  /** `v.length` for a value that is neither null nor undefined: a string's length, an
      object's `length` property, and undefined for numbers and booleans. */
  function LengthOf(v: JsValue): JsValue {
    match v
    case Str(s) => Num(|s| as real)
    case Obj(f) => Get(f, "length")
    case _ => Undefined
  }

  // ---------------------------------------------------------------------------
  // Lower-casing for comparison with a lower-case ASCII word

  /** Lower-cases the characters whose lower-case form is an ASCII letter: `A`-`Z` and the
      KELVIN SIGN U+212A (whose lower case is `k`). Every other character is kept. For a
      lower-case ASCII word `t`, `LowerCase(s) == t` exactly when `s.toLowerCase() === t`. */
  function LowerChar(c: char): char {
    if 'A' <= c <= 'Z' then (c as int + 32) as char
    else if c == '\U{212A}' then 'k'
    else c
  }

  function LowerCase(s: string): (r: string)
    ensures |r| == |s|
    ensures forall i :: 0 <= i < |s| ==> r[i] == LowerChar(s[i])
    ensures forall i :: 0 <= i < |r| ==> !('A' <= r[i] <= 'Z') && r[i] != '\U{212A}'
  {
    seq(|s|, i requires 0 <= i < |s| => LowerChar(s[i]))
  }

  /** Lower-casing twice is lower-casing once. */
  lemma LowerCaseIdempotent(s: string)
    ensures LowerCase(LowerCase(s)) == LowerCase(s)
  {
    var t := LowerCase(s);
    assert forall i :: 0 <= i < |t| ==> LowerChar(t[i]) == t[i];
  }

  /** A string with no character that lower-cases differently is its own lower case; so a
      word compared against stays itself. */
  lemma LowerCaseKeeps(s: string)
    requires forall i :: 0 <= i < |s| ==> !('A' <= s[i] <= 'Z') && s[i] != '\U{212A}'
    ensures LowerCase(s) == s
  {
    assert forall i :: 0 <= i < |s| ==> LowerChar(s[i]) == s[i];
  }

  function UpperChar(c: char): char {
    if 'a' <= c <= 'z' then (c as int - 32) as char else c
  }

  function UpperCase(s: string): (r: string)
    ensures |r| == |s|
    ensures forall i :: 0 <= i < |s| ==> r[i] == UpperChar(s[i])
  {
    seq(|s|, i requires 0 <= i < |s| => UpperChar(s[i]))
  }

  /** Upper-casing a string does not change how it compares lower-cased. */
  lemma LowerCaseOfUpperCase(s: string)
    ensures LowerCase(UpperCase(s)) == LowerCase(s)
  {
    assert forall i :: 0 <= i < |s| ==> LowerChar(UpperChar(s[i])) == LowerChar(s[i]);
  }

  // ---------------------------------------------------------------------------
  // Number(s) for a string

  /** The white space that `Number` strips from both ends of a string. */
  predicate IsWhiteSpace(c: char) {
    c == '\t' || c == '\n' || c == '\U{000B}' || c == '\U{000C}' || c == '\r' || c == ' '
    || c == '\U{00A0}' || c == '\U{1680}' || ('\U{2000}' <= c <= '\U{200A}')
    || c == '\U{2028}' || c == '\U{2029}' || c == '\U{202F}' || c == '\U{205F}'
    || c == '\U{3000}' || c == '\U{FEFF}'
  }

  function TrimStart(s: string): (r: string)
    ensures |r| <= |s| && r == s[|s| - |r|..]
    ensures r != "" ==> !IsWhiteSpace(r[0])
  {
    if s != "" && IsWhiteSpace(s[0]) then TrimStart(s[1..]) else s
  }

  function TrimEnd(s: string): (r: string)
    ensures |r| <= |s| && r == s[..|r|]
    ensures r != "" ==> !IsWhiteSpace(r[|r| - 1])
  {
    if s != "" && IsWhiteSpace(s[|s| - 1]) then TrimEnd(s[..|s| - 1]) else s
  }

  predicate IsDigit(c: char) {
    '0' <= c <= '9'
  }

  predicate AllDigits(s: string) {
    forall i :: 0 <= i < |s| ==> IsDigit(s[i])
  }

  function DigitValue(c: char): nat
    requires IsDigit(c)
  {
    c as int - '0' as int
  }

  /** The value of a string of decimal digits. */
  function DigitsValue(s: string): nat
    requires AllDigits(s)
  {
    if s == "" then 0 else DigitsValue(s[..|s| - 1]) * 10 + DigitValue(s[|s| - 1])
  }

  function Pow10(n: nat): (r: nat)
    ensures r >= 1
  {
    if n == 0 then 1 else 10 * Pow10(n - 1)
  }

  /** The position of the first `.`, or the length when there is none. */
  function IndexOfDot(s: string): (k: nat)
    ensures k <= |s|
    ensures k < |s| ==> s[k] == '.'
    ensures forall i :: 0 <= i < k ==> s[i] != '.'
  {
    if s == "" then 0
    else if s[0] == '.' then 0
    else 1 + IndexOfDot(s[1..])
  }

  /** An unsigned decimal: digits, optionally a `.` and more digits, at least one digit in all. */
  function UnsignedDecimal(s: string): (r: JsValue)
    ensures r.NaN? || (r.Num? && r.n >= 0.0)
  {
    var k := IndexOfDot(s);
    var whole := s[..k];
    var frac := if k < |s| then s[k + 1..] else "";
    if AllDigits(whole) && AllDigits(frac) && |whole| + |frac| > 0 then
      Num(DigitsValue(whole) as real + DigitsValue(frac) as real / Pow10(|frac|) as real)
    else
      NaN
  }

  /** `Number(s)`: white space at both ends is ignored, the empty string is 0, and otherwise
      the string must be a decimal with an optional sign. */
  function StringToNumber(s: string): (r: JsValue)
    ensures r.Num? || r.NaN?
  {
    var t := TrimEnd(TrimStart(s));
    if t == "" then Num(0.0)
    else if t[0] == '-' then
      (var u := UnsignedDecimal(t[1..]); if u.Num? then Num(-u.n) else NaN)
    else if t[0] == '+' then UnsignedDecimal(t[1..])
    else UnsignedDecimal(t)
  }

  function DigitChar(d: nat): (c: char)
    requires d < 10
    ensures IsDigit(c) && DigitValue(c) == d
  {
    ('0' as int + d) as char
  }

  /** The canonical decimal text of a natural number, as `String(n)` writes it. The handlers
      never call `String`; this names the strings (a form field sent as "70", say) that the
      numeric checks' `Number` call reads back as that natural number. */
  function DecimalString(n: nat): (s: string)
  {
    if n < 10 then [DigitChar(n)] else DecimalString(n / 10) + [DigitChar(n % 10)]
  }

  lemma {:induction false} DecimalStringValue(n: nat)
    ensures DecimalString(n) != "" && AllDigits(DecimalString(n))
    ensures DigitsValue(DecimalString(n)) == n
  {
    if n >= 10 {
      DecimalStringValue(n / 10);
      var s := DecimalString(n);
      assert s[..|s| - 1] == DecimalString(n / 10);
    }
  }

  lemma DigitsUntrimmed(s: string)
    requires s != "" && AllDigits(s)
    ensures TrimEnd(TrimStart(s)) == s
  {
    assert !IsWhiteSpace(s[0]);
    assert TrimStart(s) == s;
    assert !IsWhiteSpace(s[|s| - 1]);
  }

  lemma DigitsDecimal(s: string)
    requires s != "" && AllDigits(s)
    ensures UnsignedDecimal(s) == Num(DigitsValue(s) as real)
  {
    var k := IndexOfDot(s);
    assert k == |s|;
    assert s[..k] == s;
  }

  /** A string of decimal digits converts to its decimal value. */
  lemma DigitsToNumber(s: string)
    requires s != "" && AllDigits(s)
    ensures ToNumber(Str(s)) == Num(DigitsValue(s) as real)
  {
    DigitsUntrimmed(s);
    DigitsDecimal(s);
    assert IsDigit(s[0]);
  }

  /** `Number(String(n)) === n` for every natural number `n`. */
  lemma NumberOfDecimalString(n: nat)
    ensures ToNumber(Str(DecimalString(n))) == Num(n as real)
  {
    DecimalStringValue(n);
    DigitsToNumber(DecimalString(n));
  }
}
