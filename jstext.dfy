/** The few ECMAScript string built-ins the lead-capture code relies on:
    String.prototype.trim, Number.prototype.toString on integers,
    Array.prototype.join and the digit filter `replace(/\D/g, "")`. */
module JsText {

  datatype Option<+T> = None | Some(value: T) {
    /** `x ?? d` for a value that may be null or undefined */
    function GetOr(default: T): T {
      match this
      case Some(v) => v
      case None => default
    }
  }

  // ---------------------------------------------------------------- trim

  /** The characters String.prototype.trim removes: ECMAScript WhiteSpace
      (TAB, VT, FF, ZWNBSP and every Zs space) and LineTerminator. */
  predicate IsWhitespace(c: char) {
    c == '\t' || c == '\n' || c == '\U{000B}' || c == '\U{000C}' || c == '\r'
    || c == ' ' || c == '\U{00A0}' || c == '\U{1680}'
    || ('\U{2000}' <= c <= '\U{200A}')
    || c == '\U{2028}' || c == '\U{2029}' || c == '\U{202F}' || c == '\U{205F}'
    || c == '\U{3000}' || c == '\U{FEFF}'
  }

  predicate AllWhitespace(s: string) {
    forall i :: 0 <= i < |s| ==> IsWhitespace(s[i])
  }

  /** Neither end of `s` is whitespace. */
  predicate Trimmed(s: string) {
    s == [] || (!IsWhitespace(s[0]) && !IsWhitespace(s[|s| - 1]))
  }

  /** A string a form field can show: not empty and without surrounding whitespace. */
  predicate Displayable(s: string) {
    s != [] && Trimmed(s)
  }

  /** `r` is what is left of `s` once a whitespace prefix and a whitespace suffix are cut off. */
  ghost predicate CoreOf(r: string, s: string) {
    exists i, j :: 0 <= i <= j <= |s| && r == s[i..j] && AllWhitespace(s[..i]) && AllWhitespace(s[j..])
  }

  /** String.prototype.trimStart */
  function TrimStart(s: string): string {
    if s != [] && IsWhitespace(s[0]) then TrimStart(s[1..]) else s
  }

  /** String.prototype.trimEnd */
  function TrimEnd(s: string): string {
    if s != [] && IsWhitespace(s[|s| - 1]) then TrimEnd(s[..|s| - 1]) else s
  }

  /** String.prototype.trim */
  function Trim(s: string): string {
    TrimEnd(TrimStart(s))
  }

  /** trimStart removes a whitespace prefix, and all of it. */
  lemma {:induction false} TrimStartSpec(s: string)
    ensures var r := TrimStart(s);
      |r| <= |s| && r == s[|s| - |r|..] && AllWhitespace(s[..|s| - |r|])
      && (r == [] || !IsWhitespace(r[0]))
  {
    if s != [] && IsWhitespace(s[0]) {
      var t := s[1..];
      TrimStartSpec(t);
      var r := TrimStart(t);
      assert TrimStart(s) == r;
      var k := |t| - |r|;
      assert s[k + 1..] == t[k..];
      assert s[..k + 1] == [s[0]] + t[..k];
      WhitespaceCons(s[0], t[..k]);
    } else {
      assert s[..0] == [];
    }
  }

  /** A whitespace character before or after blank text keeps it blank. */
  lemma WhitespaceCons(c: char, w: string)
    requires IsWhitespace(c) && AllWhitespace(w)
    ensures AllWhitespace([c] + w)
  {
    var cw := [c] + w;
    forall j | 0 <= j < |cw| ensures IsWhitespace(cw[j]) {
      if j > 0 {
        assert cw[j] == w[j - 1];
      }
    }
  }

  lemma WhitespaceSnoc(w: string, c: char)
    requires AllWhitespace(w) && IsWhitespace(c)
    ensures AllWhitespace(w + [c])
  {
    var wc := w + [c];
    forall j | 0 <= j < |wc| ensures IsWhitespace(wc[j]) {
      if j < |w| {
        assert wc[j] == w[j];
      }
    }
  }

  /** trimEnd removes a whitespace suffix, and all of it. */
  lemma {:induction false} TrimEndSpec(s: string)
    ensures var r := TrimEnd(s);
      |r| <= |s| && r == s[..|r|] && AllWhitespace(s[|r|..])
      && (r == [] || !IsWhitespace(r[|r| - 1]))
  {
    if s != [] && IsWhitespace(s[|s| - 1]) {
      var t := s[..|s| - 1];
      TrimEndSpec(t);
      var r := TrimEnd(t);
      assert TrimEnd(s) == r;
      assert t[..|r|] == s[..|r|];
      assert s[|r|..] == t[|r|..] + [s[|s| - 1]];
      WhitespaceSnoc(t[|r|..], s[|s| - 1]);
    } else {
      assert s[|s|..] == [];
    }
  }

  /** trim leaves a string with no whitespace at either end, obtained by cutting
      whitespace only; it is empty exactly when the input is blank. */
  lemma TrimSpec(s: string)
    ensures Trimmed(Trim(s))
    ensures |Trim(s)| <= |s|
    ensures CoreOf(Trim(s), s)
    ensures Trim(s) == [] <==> AllWhitespace(s)
  {
    var t := TrimStart(s);
    var r := TrimEnd(t);
    TrimStartSpec(s);
    TrimEndSpec(t);
    assert Trim(s) == r;
    var i := |s| - |t|;
    var j := i + |r|;
    assert r == s[i..j];
    assert s[j..] == t[|r|..];
    assert CoreOf(r, s);
    if r == [] {
      assert t[|r|..] == t;
      assert s == s[..i] + t;
      WhitespaceAppend(s[..i], t);
    } else {
      assert r[0] == t[0] == s[i];
    }
  }

  /** Blank text followed by blank text is blank. */
  lemma WhitespaceAppend(v: string, w: string)
    requires AllWhitespace(v) && AllWhitespace(w)
    ensures AllWhitespace(v + w)
  {
    var vw := v + w;
    forall j | 0 <= j < |vw| ensures IsWhitespace(vw[j]) {
      if j < |v| {
        assert vw[j] == v[j];
      } else {
        assert vw[j] == w[j - |v|];
      }
    }
  }

  lemma TrimOfTrimmed(s: string)
    requires Trimmed(s)
    ensures Trim(s) == s
  {
  }

  /** Trimming twice is trimming once. */
  lemma TrimIdempotent(s: string)
    ensures Trim(Trim(s)) == Trim(s)
  {
    TrimSpec(s);
    TrimOfTrimmed(Trim(s));
  }

  // ------------------------------------------------- integers as decimal text

  predicate IsDigit(c: char) {
    '0' <= c <= '9'
  }

  predicate AllDigits(s: string) {
    forall i :: 0 <= i < |s| ==> IsDigit(s[i])
  }

  function DigitChar(d: nat): (c: char)
    requires d < 10
    ensures IsDigit(c) && c as int - '0' as int == d
  {
    (d + '0' as int) as char
  }

  /** The decimal numeral of `n`, without leading zeros. */
  function NatToDecimal(n: nat): (r: string)
    ensures r != [] && AllDigits(r)
    ensures r[0] == '0' ==> n == 0 && r == "0"
    decreases n
  {
    if n < 10 then [DigitChar(n)] else NatToDecimal(n / 10) + [DigitChar(n % 10)]
  }

  /** A decimal numeral, possibly negative. */
  predicate IsNumeral(s: string) {
    s != [] && (AllDigits(s) || (s[0] == '-' && AllDigits(s[1..])))
  }

  /** Number.prototype.toString() of an integer value (plain decimal, `-` for negatives) */
  function IntToDecimal(n: int): (r: string)
    ensures IsNumeral(r)
    ensures Displayable(r)
    ensures forall i :: 0 <= i < |r| ==> !IsWhitespace(r[i])
    ensures n >= 0 ==> r[0] != '-' && (r[0] == '0' ==> r == "0")
    ensures n < 0 ==> |r| >= 2 && r[0] == '-' && r[1] != '0'
  {
    if n < 0 then "-" + NatToDecimal(-n) else NatToDecimal(n)
  }

  /** Value of a string of decimal digits, read left to right. */
  function DigitsValue(s: string): nat
    requires AllDigits(s)
  {
    if s == [] then 0 else 10 * DigitsValue(s[..|s| - 1]) + (s[|s| - 1] as int - '0' as int)
  }

  /** Reads back a numeral produced by IntToDecimal. */
  function ParseDecimal(s: string): int
    requires IsNumeral(s)
  {
    if s[0] == '-' then -(DigitsValue(s[1..]) as int) else DigitsValue(s)
  }

  lemma {:induction false} NatDecimalRoundTrip(n: nat)
    ensures DigitsValue(NatToDecimal(n)) == n
  {
    if n >= 10 {
      var r := NatToDecimal(n);
      var prefix := NatToDecimal(n / 10);
      assert r[..|r| - 1] == prefix;
      NatDecimalRoundTrip(n / 10);
    }
  }

  /** The decimal rendering loses nothing: parsing it gives the number back. */
  lemma DecimalRoundTrip(n: int)
    ensures ParseDecimal(IntToDecimal(n)) == n
  {
    if n < 0 {
      assert IntToDecimal(n)[1..] == NatToDecimal(-n);
      NatDecimalRoundTrip(-n);
    } else {
      NatDecimalRoundTrip(n);
    }
  }

  // ---------------------------------------------------------------- join

  /** Array.prototype.join(sep) on an array of strings */
  function Join(xs: seq<string>, sep: string): string
  {
    if xs == [] then []
    else if |xs| == 1 then xs[0]
    else xs[0] + sep + Join(xs[1..], sep)
  }

  /** Joining a concatenation joins each part and puts one separator between them. */
  lemma {:induction false} JoinAppend(xs: seq<string>, ys: seq<string>, sep: string)
    requires xs != [] && ys != []
    ensures Join(xs + ys, sep) == Join(xs, sep) + sep + Join(ys, sep)
  {
    var zs := xs + ys;
    assert zs[0] == xs[0];
    if |xs| == 1 {
      assert zs[1..] == ys;
    } else {
      assert zs[1..] == xs[1..] + ys;
      JoinAppend(xs[1..], ys, sep);
      calc {
        Join(zs, sep);
        xs[0] + sep + Join(xs[1..] + ys, sep);
        xs[0] + sep + (Join(xs[1..], sep) + sep + Join(ys, sep));
        (xs[0] + sep + Join(xs[1..], sep)) + sep + Join(ys, sep);
        Join(xs, sep) + sep + Join(ys, sep);
      }
    }
  }

  /** A join of displayable strings is displayable, whatever the separator. */
  lemma {:induction false} JoinDisplayable(xs: seq<string>, sep: string)
    requires xs != []
    requires forall i :: 0 <= i < |xs| ==> Displayable(xs[i])
    ensures Displayable(Join(xs, sep))
  {
    if |xs| > 1 {
      JoinDisplayable(xs[1..], sep);
      var rest := Join(xs[1..], sep);
      var r := xs[0] + sep + rest;
      assert r[0] == xs[0][0];
      assert r[|r| - 1] == rest[|rest| - 1];
    }
  }

  // ------------------------------------------------------ digit filtering

  /** `s.replace(/\D/g, "")`: keeps the ASCII digits, in order. */
  function RemoveNonDigits(s: string): (r: string)
    ensures AllDigits(r)
    ensures |r| <= |s|
    ensures AllDigits(s) ==> r == s
  {
    if s == [] then []
    else (if IsDigit(s[0]) then [s[0]] else []) + RemoveNonDigits(s[1..])
  }

  /** Every digit of `s` survives the filter as often as it occurs, and nothing else does. */
  lemma {:induction false} RemoveNonDigitsCounts(s: string, c: char)
    ensures multiset(RemoveNonDigits(s))[c] == if IsDigit(c) then multiset(s)[c] else 0
  {
    if s != [] {
      assert s == [s[0]] + s[1..];
      RemoveNonDigitsCounts(s[1..], c);
    }
  }

  /** The filter works piece by piece, so the order of the digits is kept. */
  lemma {:induction false} RemoveNonDigitsAppend(a: string, b: string)
    ensures RemoveNonDigits(a + b) == RemoveNonDigits(a) + RemoveNonDigits(b)
  {
    if a == [] {
      assert a + b == b;
    } else {
      var ab := a + b;
      assert ab[0] == a[0] && ab[1..] == a[1..] + b;
      RemoveNonDigitsAppend(a[1..], b);
    }
  }
}
