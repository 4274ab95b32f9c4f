/**
 * The JavaScript string services the storefront relies on: `trim`, `toLowerCase`,
 * `includes`, `parseInt`, `Number(string)`, number-to-text and the ordering used by
 * `localeCompare`.
 */
module JsText {
  import opened Wrappers

  /** ECMAScript WhiteSpace and LineTerminator code points (the set `trim` strips). */
  predicate IsSpace(c: char) {
    c == ' ' || c == '\t' || c == '\n' || c == '\r' || c == '\U{000B}' || c == '\U{000C}' ||
    c == '\U{00A0}' || c == '\U{1680}' || ('\U{2000}' <= c <= '\U{200A}') ||
    c == '\U{2028}' || c == '\U{2029}' || c == '\U{202F}' || c == '\U{205F}' ||
    c == '\U{3000}' || c == '\U{FEFF}'
  }

  /** Drops leading white space. */
  function TrimStart(s: string): (r: string)
    ensures |r| <= |s| && r == s[|s| - |r|..]
    ensures forall k :: 0 <= k < |s| - |r| ==> IsSpace(s[k])
    ensures r == [] || !IsSpace(r[0])
  {
    if |s| > 0 && IsSpace(s[0]) then TrimStart(s[1..]) else s
  }

  /** Drops trailing white space. */
  function TrimEnd(s: string): (r: string)
    ensures |r| <= |s| && r == s[..|r|]
    ensures forall k :: |r| <= k < |s| ==> IsSpace(s[k])
    ensures r == [] || !IsSpace(r[|r| - 1])
  {
    if |s| > 0 && IsSpace(s[|s| - 1]) then TrimEnd(s[..|s| - 1]) else s
  }

  /** `s.trim()`. */
  function Trim(s: string): string {
    TrimEnd(TrimStart(s))
  }

  /** Trimming twice changes nothing more. */
  lemma TrimIdempotent(s: string)
    ensures Trim(Trim(s)) == Trim(s)
  {
    var r := Trim(s);
    assert r == [] || !IsSpace(r[0]) by {
      var t := TrimStart(s);
      if r != [] {
        assert r == t[..|r|];
        assert r[0] == t[0];
      }
    }
    assert TrimStart(r) == r;
  }

  /** A string trims to "" exactly when it consists of white space only. */
  lemma TrimBlank(s: string)
    ensures Trim(s) == "" <==> forall k :: 0 <= k < |s| ==> IsSpace(s[k])
  {
    var t := TrimStart(s);
    if t != [] {
      assert t[0] == s[|s| - |t|];
    }
  }

  /** `toLowerCase` on the ASCII letters; every other character is kept. */
  function LowerChar(c: char): char {
    if 'A' <= c <= 'Z' then (c as int + 32) as char else c
  }

  function Lower(s: string): (r: string)
    ensures |r| == |s| && forall k :: 0 <= k < |s| ==> r[k] == LowerChar(s[k])
  {
    seq(|s|, k requires 0 <= k < |s| => LowerChar(s[k]))
  }

  /** `prefix` starts `s`. */
  predicate IsPrefix(prefix: string, s: string) {
    |prefix| <= |s| && s[..|prefix|] == prefix
  }

  /** `hay.includes(needle)`. */
  predicate Contains(hay: string, needle: string)
    decreases |hay|
  {
    IsPrefix(needle, hay) || (|hay| > 0 && Contains(hay[1..], needle))
  }

  /** An occurrence of `needle` at offset `i` is found by `Contains`. */
  lemma {:induction false} ContainsAt(hay: string, needle: string, i: nat)
    requires i + |needle| <= |hay| && hay[i..i + |needle|] == needle
    ensures Contains(hay, needle)
    decreases i
  {
    if i > 0 {
      assert hay[1..][i - 1..i - 1 + |needle|] == hay[i..i + |needle|];
      ContainsAt(hay[1..], needle, i - 1);
    }
  }

  /** Conversely, `Contains` only holds when there is an occurrence. */
  lemma {:induction false} ContainsWitness(hay: string, needle: string) returns (i: nat)
    requires Contains(hay, needle)
    ensures i + |needle| <= |hay| && hay[i..i + |needle|] == needle
    decreases |hay|
  {
    if IsPrefix(needle, hay) {
      i := 0;
    } else {
      var j := ContainsWitness(hay[1..], needle);
      assert hay[1..][j..j + |needle|] == hay[j + 1..j + 1 + |needle|];
      i := j + 1;
    }
  }

  /** Every string includes "". */
  lemma ContainsEmpty(hay: string)
    ensures Contains(hay, "")
  {
    assert IsPrefix("", hay);
  }

  // ---------------------------------------------------------------- digits

  predicate IsDigitIn(c: char, hex: bool) {
    ('0' <= c <= '9') || (hex && (('a' <= c <= 'f') || ('A' <= c <= 'F')))
  }

  function DigitValue(c: char): (v: nat)
    ensures '0' <= c <= '9' ==> v == c as int - '0' as int
  {
    if '0' <= c <= '9' then c as int - '0' as int
    else if 'a' <= c <= 'f' then c as int - 'a' as int + 10
    else if 'A' <= c <= 'F' then c as int - 'A' as int + 10
    else 0
  }

  /** The longest prefix of `s` made of digits of the given base. */
  function LeadingDigits(s: string, hex: bool): (r: string)
    ensures IsPrefix(r, s)
    ensures forall k :: 0 <= k < |r| ==> IsDigitIn(r[k], hex)
    ensures |r| < |s| ==> !IsDigitIn(s[|r|], hex)
  {
    if |s| > 0 && IsDigitIn(s[0], hex) then [s[0]] + LeadingDigits(s[1..], hex) else []
  }

  /** The value of a digit string, most significant digit first. */
  function DigitsValue(ds: string, hex: bool): nat {
    if |ds| == 0 then 0
    else DigitsValue(ds[..|ds| - 1], hex) * (if hex then 16 else 10) + DigitValue(ds[|ds| - 1])
  }

  /** The unsigned part of `parseInt`: a "0x"/"0X" prefix selects base 16, otherwise base 10. */
  function ParseUnsigned(body: string): Option<nat> {
    var hex := |body| >= 2 && body[0] == '0' && (body[1] == 'x' || body[1] == 'X');
    var digits := LeadingDigits(if hex then body[2..] else body, hex);
    if |digits| == 0 then None else Some(DigitsValue(digits, hex))
  }

  /** `parseInt(s)` with no radix: `None` is NaN. */
  function ParseInt(s: string): Option<int> {
    var t := TrimStart(s);
    var negative := |t| > 0 && t[0] == '-';
    var body := if |t| > 0 && (t[0] == '-' || t[0] == '+') then t[1..] else t;
    match ParseUnsigned(body)
    case None => None
    case Some(v) => var w: int := v; Some(if negative then -w else w)
  }

  // ------------------------------------------------------- number to text

  function DigitChar(d: nat): char
    requires d < 10
  {
    ('0' as int + d) as char
  }

  /** Decimal text of a natural number, without leading zeros. */
  function NatText(n: nat): (r: string)
    ensures |r| > 0 && forall k :: 0 <= k < |r| ==> '0' <= r[k] <= '9'
  {
    if n < 10 then [DigitChar(n)] else NatText(n / 10) + [DigitChar(n % 10)]
  }

  /** `String(n)` for an integer. */
  function IntText(n: int): string {
    if n < 0 then "-" + NatText(-n) else NatText(n)
  }

  lemma {:induction false} NatTextValue(n: nat)
    ensures DigitsValue(NatText(n), false) == n
  {
    var r := NatText(n);
    if n >= 10 {
      NatTextValue(n / 10);
      assert r[..|r| - 1] == NatText(n / 10);
    }
  }

  lemma {:induction false} NatTextLeading(n: nat)
    ensures |NatText(n)| >= 2 ==> NatText(n)[0] != '0'
  {
    if n >= 10 {
      NatTextLeading(n / 10);
      assert NatText(n)[0] == NatText(n / 10)[0];
    }
  }

  /** A digit string is its own longest digit prefix. */
  lemma {:induction false} LeadingDigitsAll(ds: string)
    requires forall k :: 0 <= k < |ds| ==> '0' <= ds[k] <= '9'
    ensures LeadingDigits(ds, false) == ds
  {
    if |ds| > 0 {
      LeadingDigitsAll(ds[1..]);
      assert ds == [ds[0]] + ds[1..];
    }
  }

  /** A decimal digit string without a leading zero is read in base 10 to its value. */
  lemma ParseUnsignedDigits(ds: string)
    requires |ds| > 0 && forall k :: 0 <= k < |ds| ==> '0' <= ds[k] <= '9'
    requires |ds| >= 2 ==> ds[0] != '0'
    ensures ParseUnsigned(ds) == Some(DigitsValue(ds, false))
  {
    LeadingDigitsAll(ds);
  }

  /** Text that does not start with white space is left alone by `TrimStart`. */
  lemma TrimStartNoSpace(t: string)
    requires |t| > 0 && !IsSpace(t[0])
    ensures TrimStart(t) == t
  {
  }

  lemma ParseIntUnsigned(t: string, v: nat)
    requires |t| > 0 && !IsSpace(t[0]) && t[0] != '-' && t[0] != '+'
    requires ParseUnsigned(t) == Some(v)
    ensures ParseInt(t) == Some(v)
  {
    TrimStartNoSpace(t);
  }

  lemma ParseIntNegative(t: string, v: nat)
    requires |t| > 0 && t[0] == '-'
    requires ParseUnsigned(t[1..]) == Some(v)
    ensures ParseInt(t) == Some(-(v as int))
  {
    TrimStartNoSpace(t);
  }

  /** `parseInt(String(n)) === n`: the decimal text of an integer reads back as that integer. */
  lemma ParseIntText(n: int)
    ensures ParseInt(IntText(n)) == Some(n)
  {
    var m: nat := if n < 0 then -n else n;
    var ds := NatText(m);
    NatTextValue(m);
    NatTextLeading(m);
    ParseUnsignedDigits(ds);
    if n < 0 {
      var t := "-" + ds;
      assert t[1..] == ds;
      ParseIntNegative(t, m);
    } else {
      ParseIntUnsigned(ds, m);
    }
  }

  // ------------------------------------------------------ Number(string)

  function Pow10(k: nat): (r: nat)
    ensures r >= 1
  {
    if k == 0 then 1 else 10 * Pow10(k - 1)
  }

  /** Decimal digits with an optional fraction, and nothing else; `None` otherwise. */
  function ParseDecimal(body: string): Option<real> {
    var whole := LeadingDigits(body, false);
    DecimalTail(body[|whole|..], DigitsValue(whole, false), |whole| > 0)
  }

  /** What may follow the whole digits: nothing, or a point and fraction digits to the end. */
  function DecimalTail(rest: string, wholeValue: nat, hasWhole: bool): Option<real> {
    if rest == "" then (if hasWhole then Some(wholeValue as real) else None)
    else if rest[0] != '.' then None
    else
      var frac := LeadingDigits(rest[1..], false);
      if |frac| != |rest| - 1 || (!hasWhole && |frac| == 0) then None
      else Some(wholeValue as real + FractionValue(frac))
  }

  /** The value of the digits after a decimal point. */
  function FractionValue(frac: string): (r: real)
    requires forall k :: 0 <= k < |frac| ==> '0' <= frac[k] <= '9'
    ensures 0.0 <= r < 1.0
  {
    DigitsBelowPow10(frac);
    var d := DigitsValue(frac, false) as real;
    var p := Pow10(|frac|) as real;
    DivBelowOne(d, p);
    d / p
  }

  lemma DivBelowOne(d: real, p: real)
    requires 0.0 <= d < p
    ensures 0.0 <= d / p < 1.0
  {
  }

  /** `k` decimal digits are worth less than `10^k`. */
  lemma {:induction false} DigitsBelowPow10(ds: string)
    requires forall k :: 0 <= k < |ds| ==> '0' <= ds[k] <= '9'
    ensures DigitsValue(ds, false) < Pow10(|ds|)
  {
    if |ds| > 0 {
      var front := ds[..|ds| - 1];
      DigitsBelowPow10(front);
      assert DigitValue(ds[|ds| - 1]) < 10;
    }
  }

  /**
   * `Number(s)` for a string: blank text is 0; otherwise an optional sign, decimal digits and an
   * optional fraction. `None` is NaN.
   */
  function NumberOfText(s: string): Option<real> {
    var t := Trim(s);
    if t == "" then Some(0.0)
    else if t[0] == '-' then
      match ParseDecimal(t[1..]) { case Some(v) => Some(-v) case None => None }
    else ParseDecimal(if t[0] == '+' then t[1..] else t)
  }

  lemma TrimEndNoSpace(t: string)
    requires |t| > 0 && !IsSpace(t[|t| - 1])
    ensures TrimEnd(t) == t
  {
  }

  /** `Number` reads back the decimal text of any natural number. */
  lemma NumberOfNatText(n: nat)
    ensures NumberOfText(NatText(n)) == Some(n as real)
  {
    var ds := NatText(n);
    TrimStartNoSpace(ds);
    TrimEndNoSpace(ds);
    assert Trim(ds) == ds;
    ParseDecimalDigits(ds);
    NatTextValue(n);
  }

  lemma ParseDecimalDigits(ds: string)
    requires |ds| > 0 && forall k :: 0 <= k < |ds| ==> '0' <= ds[k] <= '9'
    ensures ParseDecimal(ds) == Some(DigitsValue(ds, false) as real)
  {
    LeadingDigitsAll(ds);
    assert ds[|ds|..] == "";
  }

  // ------------------------------------------------------------- ordering

  /** Code-point lexicographic order, standing for `a.localeCompare(b) < 0`. */
  predicate TextLess(a: string, b: string) {
    if |a| == 0 then |b| > 0
    else if |b| == 0 then false
    else if a[0] != b[0] then a[0] < b[0]
    else TextLess(a[1..], b[1..])
  }

  lemma {:induction false} TextLessIrreflexive(a: string)
    ensures !TextLess(a, a)
  {
    if |a| > 0 { TextLessIrreflexive(a[1..]); }
  }

  lemma {:induction false} TextLessTransitive(a: string, b: string, c: string)
    requires TextLess(a, b) && TextLess(b, c)
    ensures TextLess(a, c)
  {
    if |a| > 0 && |b| > 0 && |c| > 0 && a[0] == b[0] && b[0] == c[0] {
      TextLessTransitive(a[1..], b[1..], c[1..]);
    }
  }

  lemma {:induction false} TextLessTotal(a: string, b: string)
    requires a != b
    ensures TextLess(a, b) || TextLess(b, a)
  {
    if |a| > 0 && |b| > 0 && a[0] == b[0] {
      TextLessTotal(a[1..], b[1..]);
    }
  }
}
