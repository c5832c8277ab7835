/**
 * String helpers with the meaning the dashboard's JavaScript gives them:
 * `trim`, `toLowerCase` (ASCII letters only), `includes`, the relational
 * operator `<` on strings, `parseFloat`, and the decimal rendering of a
 * non-negative integer in a template literal.
 */
module Text {
  import opened Optional

  // ---------------------------------------------------------------- trim

  /** The code points `String.prototype.trim` removes: WhiteSpace and LineTerminator. */
  predicate IsSpace(c: char) {
    || c == '\t' || c == '\n' || c == '\U{B}' || c == '\U{C}' || c == '\r' || c == ' '
    || c == '\U{A0}' || c == '\U{1680}' || ('\U{2000}' <= c <= '\U{200A}')
    || c == '\U{2028}' || c == '\U{2029}' || c == '\U{202F}' || c == '\U{205F}'
    || c == '\U{3000}' || c == '\U{FEFF}'
  }

  predicate AllSpace(s: string) {
    forall i :: 0 <= i < |s| ==> IsSpace(s[i])
  }

  /** `s` without its leading white space: a suffix of `s` that does not start with a space. */
  function TrimStart(s: string): (r: string)
    ensures |r| <= |s| && r == s[|s| - |r|..]
    ensures r == [] || !IsSpace(r[0])
  {
    if s != [] && IsSpace(s[0]) then TrimStart(s[1..]) else s
  }

  /** `s` without its trailing white space: a prefix of `s` that does not end with a space. */
  function TrimEnd(s: string): (r: string)
    ensures |r| <= |s| && r == s[..|r|]
    ensures r == [] || !IsSpace(r[|r| - 1])
  {
    if s != [] && IsSpace(s[|s| - 1]) then TrimEnd(s[..|s| - 1]) else s
  }

  /** `s.trim()`. */
  function Trim(s: string): string {
    TrimEnd(TrimStart(s))
  }

  /** `!s.trim()`: nothing but white space. */
  predicate IsBlank(s: string) {
    Trim(s) == ""
  }

  lemma {:induction false} TrimStartEmpty(s: string)
    ensures TrimStart(s) == [] <==> AllSpace(s)
  {
    if s != [] && IsSpace(s[0]) {
      TrimStartEmpty(s[1..]);
      assert AllSpace(s) <==> AllSpace(s[1..]) by {
        assert forall i :: 0 <= i < |s[1..]| ==> s[1..][i] == s[i + 1];
      }
    }
  }

  lemma {:induction false} TrimEndEmpty(s: string)
    ensures TrimEnd(s) == [] <==> AllSpace(s)
  {
    if s != [] && IsSpace(s[|s| - 1]) {
      TrimEndEmpty(s[..|s| - 1]);
      assert AllSpace(s) <==> AllSpace(s[..|s| - 1]) by {
        assert forall i :: 0 <= i < |s| - 1 ==> s[..|s| - 1][i] == s[i];
      }
    }
  }

  /** A string is blank after `trim` exactly when every character is white space. */
  lemma BlankIffAllSpace(s: string)
    ensures IsBlank(s) <==> AllSpace(s)
  {
    TrimStartEmpty(s);
    var t := TrimStart(s);
    TrimEndEmpty(t);
    if t != [] {
      assert !AllSpace(t) by { assert !IsSpace(t[0]); }
    }
  }

  // ---------------------------------------------------------- lower case

  /** `toLowerCase` on one character, for the ASCII letters. */
  function Lower(c: char): char {
    if 'A' <= c <= 'Z' then (c as int + 32) as char else c
  }

  function ToLower(s: string): (r: string)
    ensures |r| == |s|
  {
    seq(|s|, i requires 0 <= i < |s| => Lower(s[i]))
  }

  // ------------------------------------------------------------ includes

  /** `s.includes(t)`. */
  predicate Includes(s: string, t: string)
    decreases |s|
  {
    t <= s || (s != [] && Includes(s[1..], t))
  }

  /** `t` occurs in `s` starting at offset `i`. */
  predicate OccursAt(s: string, t: string, i: int) {
    0 <= i && i + |t| <= |s| && s[i..i + |t|] == t
  }

  /** `includes` holds exactly when `t` occurs in `s` at some offset. */
  lemma {:induction false} IncludesAt(s: string, t: string)
    ensures Includes(s, t) <==> exists i :: OccursAt(s, t, i)
  {
    if t <= s {
      assert OccursAt(s, t, 0);
    } else if s == [] {
    } else {
      IncludesAt(s[1..], t);
      if Includes(s, t) {
        var j :| OccursAt(s[1..], t, j);
        assert s[j + 1..j + 1 + |t|] == s[1..][j..j + |t|];
        assert OccursAt(s, t, j + 1);
      }
      if i :| OccursAt(s, t, i) {
        assert i != 0;
        assert s[1..][i - 1..i - 1 + |t|] == s[i..i + |t|];
        assert OccursAt(s[1..], t, i - 1);
      }
    }
  }

  // ------------------------------------------------ UTF-16 code units

  /** The UTF-16 code units of one character: itself below U+10000, else a high and a low surrogate. */
  function CodeUnits(c: char): (u: seq<int>)
    ensures 1 <= |u| <= 2 && (|u| == 1 <==> c as int < 0x10000)
    ensures forall i :: 0 <= i < |u| ==> 0 <= u[i] < 0x10000
  {
    var v := c as int;
    if v < 0x10000 then [v]
    else [0xD800 + (v - 0x10000) / 0x400, 0xDC00 + (v - 0x10000) % 0x400]
  }

  /** A string as the sequence of UTF-16 code units a browser stores it as. */
  function Utf16(s: string): seq<int>
    decreases |s|
  {
    if s == [] then [] else CodeUnits(s[0]) + Utf16(s[1..])
  }

  /** A string's `.length`: the number of its UTF-16 code units, one or two per character. */
  function Utf16Length(s: string): (n: nat)
    ensures |s| <= n <= 2 * |s|
    ensures (forall i :: 0 <= i < |s| ==> s[i] as int < 0x10000) ==> n == |s|
    decreases |s|
  {
    if s == [] then 0 else |CodeUnits(s[0])| + Utf16Length(s[1..])
  }

  lemma {:induction false} Utf16LengthCounts(s: string)
    ensures Utf16Length(s) == |Utf16(s)|
    decreases |s|
  {
    if s != [] {
      Utf16LengthCounts(s[1..]);
    }
  }

  /** The first code unit is a high surrogate exactly for a character above U+FFFF. */
  lemma FirstUnitSurrogate(c: char)
    ensures 0xD800 <= CodeUnits(c)[0] < 0xDC00 <==> c as int >= 0x10000
  {
  }

  /** Two characters whose code units start two unit sequences that agree are the same, and so are the rests. */
  lemma CodeUnitsPrefix(c: char, d: char, x: seq<int>, y: seq<int>)
    requires CodeUnits(c) + x == CodeUnits(d) + y
    ensures c == d && x == y
  {
    var v, w := c as int, d as int;
    var u := CodeUnits(c) + x;
    assert u[0] == CodeUnits(c)[0] == CodeUnits(d)[0];
    FirstUnitSurrogate(c);
    FirstUnitSurrogate(d);
    if v < 0x10000 {
      assert w < 0x10000;
      assert v == u[0] == w;
    } else {
      assert w >= 0x10000;
      assert u[0] == 0xD800 + (v - 0x10000) / 0x400 == 0xD800 + (w - 0x10000) / 0x400;
      assert u[1] == 0xDC00 + (v - 0x10000) % 0x400 == 0xDC00 + (w - 0x10000) % 0x400;
      assert v == w;
    }
    assert c == d;
    assert x == u[|CodeUnits(c)|..] == y;
  }

  /** Different strings have different code units. */
  lemma {:induction false} Utf16Injective(a: string, b: string)
    requires Utf16(a) == Utf16(b)
    ensures a == b
    decreases |a|
  {
    if a != [] && b != [] {
      CodeUnitsPrefix(a[0], b[0], Utf16(a[1..]), Utf16(b[1..]));
      Utf16Injective(a[1..], b[1..]);
      assert a == [a[0]] + a[1..] && b == [b[0]] + b[1..];
    }
  }

  // ------------------------------------------------ relational < on strings

  /** Lexicographic order on code unit sequences, a proper prefix first. */
  predicate UnitsLess(a: seq<int>, b: seq<int>)
    decreases |a|
  {
    if a == [] then b != []
    else if b == [] then false
    else if a[0] != b[0] then a[0] < b[0]
    else UnitsLess(a[1..], b[1..])
  }

  /** `a < b` on strings: code unit by code unit, so a character above U+FFFF sorts by its surrogates. */
  predicate StrLess(a: string, b: string) {
    UnitsLess(Utf16(a), Utf16(b))
  }

  lemma {:induction false} UnitsLessIrreflexive(a: seq<int>)
    ensures !UnitsLess(a, a)
    decreases |a|
  {
    if a != [] {
      UnitsLessIrreflexive(a[1..]);
    }
  }

  lemma {:induction false} UnitsLessTransitive(a: seq<int>, b: seq<int>, c: seq<int>)
    requires UnitsLess(a, b) && UnitsLess(b, c)
    ensures UnitsLess(a, c)
    decreases |a|
  {
    if a != [] && b != [] && c != [] && a[0] == b[0] && b[0] == c[0] {
      UnitsLessTransitive(a[1..], b[1..], c[1..]);
    }
  }

  lemma {:induction false} UnitsLessTotal(a: seq<int>, b: seq<int>)
    requires a != b
    ensures UnitsLess(a, b) || UnitsLess(b, a)
    decreases |a|
  {
    if a != [] && b != [] && a[0] == b[0] {
      assert a == [a[0]] + a[1..] && b == [b[0]] + b[1..];
      UnitsLessTotal(a[1..], b[1..]);
    }
  }

  lemma {:induction false} UnitsLessAsymmetric(a: seq<int>, b: seq<int>)
    requires UnitsLess(a, b)
    ensures !UnitsLess(b, a)
    decreases |a|
  {
    if a != [] && b != [] && a[0] == b[0] {
      UnitsLessAsymmetric(a[1..], b[1..]);
    }
  }

  lemma StrLessIrreflexive(a: string)
    ensures !StrLess(a, a)
  {
    UnitsLessIrreflexive(Utf16(a));
  }

  lemma StrLessTransitive(a: string, b: string, c: string)
    requires StrLess(a, b) && StrLess(b, c)
    ensures StrLess(a, c)
  {
    UnitsLessTransitive(Utf16(a), Utf16(b), Utf16(c));
  }

  lemma StrLessTotal(a: string, b: string)
    requires a != b
    ensures StrLess(a, b) || StrLess(b, a)
  {
    if Utf16(a) == Utf16(b) {
      Utf16Injective(a, b);
    }
    UnitsLessTotal(Utf16(a), Utf16(b));
  }

  lemma StrLessAsymmetric(a: string, b: string)
    requires StrLess(a, b)
    ensures !StrLess(b, a)
  {
    UnitsLessAsymmetric(Utf16(a), Utf16(b));
  }

  /** A character above U+FFFF sorts before U+FF61: its high surrogate is the smaller code unit. */
  lemma SurrogateBeforeHalfwidth()
    ensures StrLess("\U{1F600}", "\U{FF61}") && '\U{1F600}' > '\U{FF61}'
  {
    assert Utf16("\U{1F600}") == [0xD83D, 0xDE00];
  }

  // ------------------------------------------------------------- numbers

  predicate IsDigit(c: char) {
    '0' <= c <= '9'
  }

  predicate AllDigits(s: string) {
    forall i :: 0 <= i < |s| ==> IsDigit(s[i])
  }

  function DigitOf(c: char): nat
    requires IsDigit(c)
  {
    c as int - '0' as int
  }

  function DigitChar(d: nat): (c: char)
    requires d < 10
    ensures IsDigit(c) && DigitOf(c) == d
  {
    ('0' as int + d) as char
  }

  /** The value of a string of decimal digits. */
  function DigitsValue(ds: string): nat
    requires AllDigits(ds)
  {
    if ds == [] then 0 else 10 * DigitsValue(ds[..|ds| - 1]) + DigitOf(ds[|ds| - 1])
  }

  /** A non-negative integer in a template literal: its decimal digits. */
  function NatToString(n: nat): (r: string)
    ensures r != [] && AllDigits(r)
    decreases n
  {
    if n < 10 then [DigitChar(n)] else NatToString(n / 10) + [DigitChar(n % 10)]
  }

  /** Reading the digits back gives the number: the rendering loses nothing. */
  lemma {:induction false} NatToStringValue(n: nat)
    ensures DigitsValue(NatToString(n)) == n
  {
    if n >= 10 {
      var s := NatToString(n / 10);
      NatToStringValue(n / 10);
      assert (s + [DigitChar(n % 10)])[..|s|] == s;
    }
  }

  /** A template-literal plural: `${n !== 1 ? 's' : ''}`. */
  function PluralS(n: int): string {
    if n != 1 then "s" else ""
  }

  // ----------------------------------------------------------- parseFloat

  /** Length of the run of decimal digits at the start of `s`. */
  function DigitRun(s: string): (n: nat)
    ensures n <= |s| && AllDigits(s[..n])
    ensures n < |s| ==> !IsDigit(s[n])
  {
    if s != [] && IsDigit(s[0]) then
      var m := DigitRun(s[1..]);
      assert forall i :: 0 <= i < m ==> s[..1 + m][i + 1] == s[1..][..m][i];
      1 + m
    else 0
  }

  lemma {:induction false} DigitRunAll(s: string)
    requires AllDigits(s)
    ensures DigitRun(s) == |s|
  {
    if s != [] {
      DigitRunAll(s[1..]);
    }
  }

  function Pow10(k: nat): (p: nat)
    ensures p >= 1
  {
    if k == 0 then 1 else 10 * Pow10(k - 1)
  }

  /** The factor contributed by an exponent `e`/`E`, optional sign, digits at the start of `t`; 1 when there is none. */
  function ExponentScale(t: string): real {
    if t != [] && (t[0] == 'e' || t[0] == 'E') then
      var signed := |t| > 1 && (t[1] == '+' || t[1] == '-');
      var ds := if signed then t[2..] else t[1..];
      var k := DigitRun(ds);
      if k == 0 then 1.0
      else if signed && t[1] == '-' then 1.0 / Pow10(DigitsValue(ds[..k])) as real
      else Pow10(DigitsValue(ds[..k])) as real
    else 1.0
  }

  /** The longest unsigned decimal literal at the start of `s`: digits, optional fraction, optional exponent. */
  function ParseUnsigned(s: string): Option<real> {
    var n := DigitRun(s);
    var rest := s[n..];
    var hasDot := rest != [] && rest[0] == '.';
    var m := if hasDot then DigitRun(rest[1..]) else 0;
    if n == 0 && m == 0 then None
    else
      var fraction := if hasDot then rest[1..][..m] else "";
      var tail := if hasDot then rest[1..][m..] else rest;
      Some((DigitsValue(s[..n]) as real + DigitsValue(fraction) as real / Pow10(m) as real)
           * ExponentScale(tail))
  }

  /**
   * `parseFloat(s)`: skip leading white space, read an optional sign and the
   * longest decimal prefix; `None` stands for `NaN`.
   */
  function ParseFloat(s: string): Option<real> {
    var t := TrimStart(s);
    if t != [] && t[0] == '-' then
      match ParseUnsigned(t[1..])
      case Some(v) => Some(-v)
      case None => None
    else if t != [] && t[0] == '+' then ParseUnsigned(t[1..])
    else ParseUnsigned(t)
  }

  /** A non-empty run of digits alone reads as its value. */
  lemma ParseUnsignedDigits(s: string)
    requires s != [] && AllDigits(s)
    ensures ParseUnsigned(s) == Some(DigitsValue(s) as real)
  {
    DigitRunAll(s);
    assert s[..|s|] == s;
    assert s[|s|..] == [];
    assert ExponentScale([]) == 1.0;
    assert DigitsValue("") == 0 && Pow10(0) == 1;
  }

  /** A string of digits alone parses to its value. */
  lemma ParseFloatDigits(s: string)
    requires s != [] && AllDigits(s)
    ensures ParseFloat(s) == Some(DigitsValue(s) as real)
  {
    assert IsDigit(s[0]);
    assert TrimStart(s) == s;
    ParseUnsignedDigits(s);
  }

  /** A rendered non-negative integer parses back to itself. */
  lemma ParseFloatNat(n: nat)
    ensures ParseFloat(NatToString(n)) == Some(n as real)
  {
    ParseFloatDigits(NatToString(n));
    NatToStringValue(n);
  }

  /** Blank input does not parse: `parseFloat('')` and `parseFloat(' ')` are `NaN`. */
  lemma ParseFloatBlank(s: string)
    requires AllSpace(s)
    ensures ParseFloat(s) == None
  {
    TrimStartEmpty(s);
  }

  /** `arr.toString()`: the entries joined with commas. */
  function JoinComma(xs: seq<string>): string {
    if xs == [] then "" else if |xs| == 1 then xs[0] else xs[0] + "," + JoinComma(xs[1..])
  }
}

/**
 * The two runtime services the form validators call: `parseFloat`, and
 * whether `new URL(text)` succeeds (`NaN` is `None`). Passing them as a value keeps the
 * validators' proofs independent of how a number is read.
 */
module Runtime {
  import opened Optional
  import opened Text

  datatype Js = Js(parseFloat: string -> Option<real>, isUrl: string -> bool)

  /** A runtime whose `parseFloat` is the one modelled here. */
  ghost predicate Standard(js: Js) {
    forall s :: js.parseFloat(s) == ParseFloat(s)
  }

  /**
   * The property names every plain object inherits from `Object.prototype`:
   * looking one of them up in an object literal finds a function (or, for
   * `__proto__`, the prototype itself), never `undefined`.
   */
  const ObjectPrototypeNames: set<string> := {
    "constructor", "__defineGetter__", "__defineSetter__", "hasOwnProperty",
    "__lookupGetter__", "__lookupSetter__", "isPrototypeOf", "propertyIsEnumerable",
    "toString", "valueOf", "__proto__", "toLocaleString"
  }

  /** The validators' range test on a parsed number: not `NaN`, and within [0, 100]. */
  predicate Percent(v: Option<real>) {
    v.Some? && 0.0 <= v.value <= 100.0
  }

  /** The browser: the modelled `parseFloat`, and a URL parser left abstract. */
  function Browser(isUrl: string -> bool): (js: Js)
    ensures Standard(js) && js.isUrl == isUrl
  {
    Js(ParseFloat, isUrl)
  }
}
