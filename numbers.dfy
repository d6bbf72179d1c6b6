/** The number handling the application borrows from JavaScript, over exact
    reals: `parseFloat(x) || 0` (ParseNum), `toFixed(2)` (Fmt2),
    `Number.prototype.toString` on integers (IntToString), and the
    `toLowerCase` / `includes` pair used by the dashboard search. */
module Numbers {

  // ---------------------------------------------------------------------
  // digits

  predicate IsDigit(ch: char)
  {
    '0' <= ch <= '9'
  }

  ghost predicate AllDigits(s: string)
  {
    forall i :: 0 <= i < |s| ==> IsDigit(s[i])
  }

  function DigitValue(ch: char): nat
    requires IsDigit(ch)
  {
    (ch as int) - ('0' as int)
  }

  function DigitChar(d: nat): (ch: char)
    requires d < 10
    ensures IsDigit(ch) && DigitValue(ch) == d
  {
    (('0' as int) + d) as char
  }

  /** Length of the run of decimal digits that starts `s`. */
  function DigitRun(s: string): (n: nat)
    ensures n <= |s|
    ensures forall i :: 0 <= i < n ==> IsDigit(s[i])
    ensures n < |s| ==> !IsDigit(s[n])
  {
    if s != [] && IsDigit(s[0]) then 1 + DigitRun(s[1..]) else 0
  }

  /** Value of a string of decimal digits, most significant digit first. */
  function DigitsValue(d: string): nat
    requires AllDigits(d)
  {
    if d == [] then 0 else 10 * DigitsValue(d[..|d| - 1]) + DigitValue(d[|d| - 1])
  }

  /** Value of the digits after a decimal point: "625" stands for 0.625. */
  function FractionValue(d: string): real
    requires AllDigits(d)
  {
    if d == [] then 0.0 else (DigitValue(d[0]) as real + FractionValue(d[1..])) / 10.0
  }

  /** `m` times ten to the power `k`, by repeated shifts of the decimal point. */
  function Shift(m: real, k: int): real
    decreases if k < 0 then -k else k
  {
    if k == 0 then m else if k > 0 then 10.0 * Shift(m, k - 1) else Shift(m, k + 1) / 10.0
  }


  // ---------------------------------------------------------------------
  // parseFloat(x) || 0

  /** The white space `parseFloat` skips before a number (the ASCII spaces
      and the non-ASCII ones most often met; see the README). */
  predicate IsSpace(ch: char)
  {
    ch == ' ' || ch == '\t' || ch == '\n' || ch == '\r' || ch == '\U{B}' || ch == '\U{C}'
    || ch == '\U{A0}' || ch == '\U{FEFF}' || ch == '\U{2028}' || ch == '\U{2029}'
  }

  function SkipSpaces(s: string): (t: string)
    ensures |t| <= |s| && t == s[|s| - |t|..]
    ensures t != [] ==> !IsSpace(t[0])
  {
    if s != [] && IsSpace(s[0]) then SkipSpaces(s[1..]) else s
  }

  /** The power of ten an exponent suffix `e[+-]digits` denotes; 0 when
      `e` does not start with a complete exponent. */
  function ExponentValue(e: string): int
  {
    if |e| >= 2 && (e[0] == 'e' || e[0] == 'E') then
      var ds := if e[1] == '+' || e[1] == '-' then e[2..] else e[1..];
      var k := DigitRun(ds);
      if k == 0 then 0
      else if e[1] == '-' then -(DigitsValue(ds[..k]) as int)
      else DigitsValue(ds[..k])
    else 0
  }

  /** What reading a number collects: the sign, the integer digits, the
      fraction digits and the text that follows them (where an exponent
      may start). */
  datatype Reading = Reading(neg: bool, whole: string, frac: string, rest: string)

  /** The value of a reading; no mantissa digit at all is 0. */
  function Value(rd: Reading): real
    requires AllDigits(rd.whole) && AllDigits(rd.frac)
  {
    if rd.whole == [] && rd.frac == [] then 0.0
    else
      var m := Shift(DigitsValue(rd.whole) as real + FractionValue(rd.frac), ExponentValue(rd.rest));
      if rd.neg then -m else m
  }

  /** A minus sign negates the value read. */
  lemma ValueSign(rd: Reading)
    requires AllDigits(rd.whole) && AllDigits(rd.frac)
    ensures Value(rd.(neg := true)) == -Value(rd.(neg := false))
    ensures Value(rd) == if rd.neg then -Value(rd.(neg := false)) else Value(rd.(neg := false))
  {
  }

  /** The longest prefix of `t` of the form `digits[.digits]`, the text
      after it, and the sign already seen. */
  function Unsigned(neg: bool, t: string): (rd: Reading)
    ensures AllDigits(rd.whole) && AllDigits(rd.frac) && rd.neg == neg
  {
    var n := DigitRun(t);
    if n < |t| && t[n] == '.' then
      var r := t[n + 1..];
      var m := DigitRun(r);
      Reading(neg, t[..n], r[..m], r[m..])
    else
      Reading(neg, t[..n], [], t[n..])
  }

  /** The unsigned number at the start of `t` with at least one mantissa
      digit, read as a real; 0 when there is none (`parseFloat` gives NaN
      there, and `NaN || 0` is 0). */
  function ParseUnsigned(t: string): real
  {
    Value(Unsigned(false, t))
  }

  /** `parseFloat(s) || 0` stated declaratively: leading white space, an
      optional sign, then the longest numeric prefix; anything unparsable
      (and 0 itself) is 0. */
  function ReadNumber(s: string): real
  {
    var t := SkipSpaces(s);
    if t != [] && t[0] == '-' then -ParseUnsigned(t[1..])
    else if t != [] && t[0] == '+' then ParseUnsigned(t[1..])
    else ParseUnsigned(t)
  }

  /** Where the scanner is: before the number, in its integer digits, or in
      its fraction digits. */
  datatype Phase = Lead | Whole | Fraction

  function PhaseRank(ph: Phase): nat
  {
    match ph
    case Lead => 2
    case Whole => 1
    case Fraction => 0
  }

  /** The scanner: one character per step, collecting the digits. */
  function Scan(s: string, ph: Phase, neg: bool, whole: string, frac: string): (rd: Reading)
    requires AllDigits(whole) && AllDigits(frac)
    ensures AllDigits(rd.whole) && AllDigits(rd.frac)
    decreases |s|, PhaseRank(ph)
  {
    match ph
    case Lead =>
      if s != [] && IsSpace(s[0]) then Scan(s[1..], Lead, neg, whole, frac)
      else if s != [] && (s[0] == '-' || s[0] == '+') then Scan(s[1..], Whole, s[0] == '-', whole, frac)
      else Scan(s, Whole, neg, whole, frac)
    case Whole =>
      if s != [] && IsDigit(s[0]) then Scan(s[1..], Whole, neg, whole + [s[0]], frac)
      else if s != [] && s[0] == '.' then Scan(s[1..], Fraction, neg, whole, frac)
      else Reading(neg, whole, frac, s)
    case Fraction =>
      if s != [] && IsDigit(s[0]) then Scan(s[1..], Fraction, neg, whole, frac + [s[0]])
      else Reading(neg, whole, frac, s)
  }

  /** `parseFloat(s) || 0`, read left to right as the engine does. */
  function ParseNum(s: string): real
  {
    Value(Scan(s, Lead, false, [], []))
  }

  /** In the fraction digits the scanner takes the whole digit run. */
  lemma {:induction false} ScanFraction(r: string, neg: bool, whole: string, frac: string)
    requires AllDigits(whole) && AllDigits(frac)
    ensures var m := DigitRun(r);
      Scan(r, Fraction, neg, whole, frac) == Reading(neg, whole, frac + r[..m], r[m..])
    decreases |r|
  {
    var m := DigitRun(r);
    if r != [] && IsDigit(r[0]) {
      ScanFraction(r[1..], neg, whole, frac + [r[0]]);
      assert (frac + [r[0]]) + r[1..][..m - 1] == frac + r[..m];
      assert r[1..][m - 1..] == r[m..];
    } else {
      assert frac + r[..0] == frac;
    }
  }

  /** In the integer digits the scanner takes the whole digit run, then
      either a point and the fraction or nothing more. */
  lemma {:induction false} ScanWhole(t: string, neg: bool, whole: string)
    requires AllDigits(whole)
    ensures var n := DigitRun(t);
      AllDigits(whole + t[..n]) &&
      Scan(t, Whole, neg, whole, []) ==
        if n < |t| && t[n] == '.' then Scan(t[n + 1..], Fraction, neg, whole + t[..n], [])
        else Reading(neg, whole + t[..n], [], t[n..])
    decreases |t|
  {
    var n := DigitRun(t);
    if t != [] && IsDigit(t[0]) {
      ScanWhole(t[1..], neg, whole + [t[0]]);
      assert (whole + [t[0]]) + t[1..][..n - 1] == whole + t[..n];
      assert t[1..][n - 1..] == t[n..];
    } else {
      assert whole + t[..0] == whole;
    }
  }

  /** From the first digit (the sign already seen) the scanner collects
      exactly the declarative reading. */
  lemma ScanUnsigned(t: string, neg: bool)
    ensures Scan(t, Whole, neg, [], []) == Unsigned(neg, t)
  {
    var n := DigitRun(t);
    var w := t[..n];
    ScanWhole(t, neg, []);
    assert [] + w == w;
    if n < |t| && t[n] == '.' {
      ScanPointFraction(t[n + 1..], neg, w);
    }
  }

  lemma ScanPointFraction(r: string, neg: bool, w: string)
    requires AllDigits(w)
    ensures Scan(r, Fraction, neg, w, []) == Reading(neg, w, r[..DigitRun(r)], r[DigitRun(r)..])
  {
    var m := DigitRun(r);
    ScanFraction(r, neg, w, []);
    assert [] + r[..m] == r[..m];
  }

  /** The declarative reading of a whole input, before its value is taken. */
  function LeadReading(s: string): Reading
  {
    var t := SkipSpaces(s);
    if t != [] && t[0] == '-' then Unsigned(true, t[1..])
    else if t != [] && t[0] == '+' then Unsigned(false, t[1..])
    else Unsigned(false, t)
  }

  /** The scanner skips the leading white space and one sign. */
  lemma {:induction false} ScanLead(s: string)
    ensures Scan(s, Lead, false, [], []) == LeadReading(s)
    decreases |s|
  {
    if s != [] && IsSpace(s[0]) {
      ScanLead(s[1..]);
    } else if s != [] && (s[0] == '-' || s[0] == '+') {
      ScanUnsigned(s[1..], s[0] == '-');
    } else {
      ScanUnsigned(s, false);
    }
  }

  /** The scanner agrees with the declarative reading on every string. */
  lemma ParseNumIsReadNumber(s: string)
    ensures ParseNum(s) == ReadNumber(s)
  {
    ScanLead(s);
    var t := SkipSpaces(s);
    if t != [] && t[0] == '-' {
      ValueSign(Unsigned(false, t[1..]));
      assert Unsigned(true, t[1..]) == Unsigned(false, t[1..]).(neg := true);
    }
  }

  /** Input with no digit at all leaves nothing collected, in every phase. */
  lemma {:induction false} ScanNoDigits(s: string, ph: Phase, neg: bool)
    requires forall i :: 0 <= i < |s| ==> !IsDigit(s[i])
    ensures var rd := Scan(s, ph, neg, [], []); rd.whole == [] && rd.frac == []
    decreases |s|, PhaseRank(ph)
  {
    match ph
    case Lead =>
      if s != [] && IsSpace(s[0]) {
        ScanNoDigits(s[1..], Lead, neg);
      } else if s != [] && (s[0] == '-' || s[0] == '+') {
        ScanNoDigits(s[1..], Whole, s[0] == '-');
      } else {
        ScanNoDigits(s, Whole, neg);
      }
    case Whole =>
      if s != [] && s[0] == '.' {
        ScanNoDigits(s[1..], Fraction, neg);
      }
    case Fraction =>
  }

  /** A string holding no digit at all is unparsable and reads as 0. */
  lemma NoDigitsParsesToZero(s: string)
    requires forall i :: 0 <= i < |s| ==> !IsDigit(s[i])
    ensures ParseNum(s) == 0.0
  {
    ScanNoDigits(s, Lead, false);
  }

  /** `parseFloat` finds no number at the start of `s` (it gives NaN):
      after the white space and one sign there is no mantissa digit. */
  ghost predicate NoMantissa(s: string)
  {
    var rd := LeadReading(s);
    rd.whole == [] && rd.frac == []
  }

  /** Every string `parseFloat` cannot read, digits after the start or
      not, reads as 0. */
  lemma NoMantissaParsesToZero(s: string)
    requires NoMantissa(s)
    ensures ParseNum(s) == 0.0
  {
    ScanLead(s);
  }

  /** A string that holds a digit and is still unreadable: a letter
      stands before it. */
  lemma LetterFirstUnreadable()
    ensures NoMantissa("x5") && ParseNum("x5") == 0.0
  {
    var s := "x5";
    assert !IsSpace(s[0]) && !IsDigit(s[0]) && s[0] != '-' && s[0] != '+' && s[0] != '.';
    assert SkipSpaces(s) == s;
    assert DigitRun(s) == 0;
    NoMantissaParsesToZero(s);
  }

  /** A sign must be followed by the number itself: "- 5" is unreadable. */
  lemma SpaceAfterSignUnreadable()
    ensures NoMantissa("- 5") && ParseNum("- 5") == 0.0
  {
    var s := "- 5";
    assert !IsSpace(s[0]) && s[0] == '-';
    assert SkipSpaces(s) == s;
    var t := s[1..];
    assert t == " 5" && !IsDigit(t[0]) && t[0] != '.';
    assert DigitRun(t) == 0;
    NoMantissaParsesToZero(s);
  }

  /** A digit string followed by something that is not a digit (or by
      nothing) is read up to its end. */
  lemma {:induction false} DigitRunPrefix(d: string, rest: string)
    requires AllDigits(d)
    requires rest == [] || !IsDigit(rest[0])
    ensures DigitRun(d + rest) == |d|
  {
    if d != [] {
      assert (d + rest)[1..] == d[1..] + rest;
      DigitRunPrefix(d[1..], rest);
    } else {
      assert d + rest == rest;
    }
  }

  // ---------------------------------------------------------------------
  // toString and toFixed(2)

  /** Decimal notation of a natural number, without leading zeros. */
  function NatToString(n: nat): (r: string)
    ensures r != [] && AllDigits(r) && DigitsValue(r) == n
    ensures r[0] != '0' || n == 0
  {
    if n < 10 then [DigitChar(n)]
    else
      var init := NatToString(n / 10);
      var r := init + [DigitChar(n % 10)];
      assert r[..|r| - 1] == init;
      r
  }

  /** `n.toString()` for an integer `n`. */
  function IntToString(n: int): string
  {
    if n < 0 then "-" + NatToString(-n) else NatToString(n)
  }

  lemma ParseUnsignedDigits(d: string)
    requires d != [] && AllDigits(d)
    ensures ParseUnsigned(d) == DigitsValue(d) as real
  {
    DigitRunPrefix(d, []);
    assert d + [] == d;
    assert d[..|d|] == d && d[|d|..] == [];
  }

  /** A string that starts with a digit is read without sign or spaces;
      a minus sign in front negates it. */
  lemma ParseNumSigned(t: string)
    requires t != [] && IsDigit(t[0])
    ensures ParseNum(t) == ParseUnsigned(t)
    ensures ParseNum("-" + t) == -ParseUnsigned(t)
  {
    assert !IsSpace(t[0]) && t[0] != '-' && t[0] != '+';
    assert Scan(t, Lead, false, [], []) == Scan(t, Whole, false, [], []);
    ScanUnsigned(t, false);
    var u := "-" + t;
    assert u[0] == '-' && !IsSpace(u[0]) && u[1..] == t;
    assert Scan(u, Lead, false, [], []) == Scan(t, Whole, true, [], []);
    ScanUnsigned(t, true);
    ValueSign(Unsigned(false, t));
  }

  /** Reading the decimal form of an integer back gives the integer. */
  lemma ParseIntToString(n: int)
    ensures ParseNum(IntToString(n)) == n as real
  {
    var d := NatToString(if n < 0 then -n else n);
    ParseUnsignedDigits(d);
    ParseNumSigned(d);
  }

  /** Hundredths of `y >= 0`, rounded half up, as `toFixed(2)` rounds the
      magnitude of its argument. */
  function Cents(y: real): (c: nat)
    requires y >= 0.0
    ensures y * 100.0 - 0.5 < c as real <= y * 100.0 + 0.5
  {
    (y * 100.0 + 0.5).Floor
  }

  /** The value that `Fmt2(x)` denotes: `x` rounded to hundredths. */
  function Round2(x: real): real
  {
    if x < 0.0 then -(Cents(-x) as real / 100.0) else Cents(x) as real / 100.0
  }

  function FixedCents(c: nat): string
  {
    NatToString(c / 100) + "." + [DigitChar(c % 100 / 10), DigitChar(c % 10)]
  }

  /** `x.toFixed(2)`: sign, integer part, point, two decimals. */
  function Fmt2(x: real): string
  {
    if x < 0.0 then "-" + FixedCents(Cents(-x)) else FixedCents(Cents(x))
  }

  /** Rounding to hundredths moves a value by at most half a hundredth. */
  lemma Round2Close(x: real)
    ensures -0.005 <= Round2(x) - x <= 0.005
  {
  }

  /** What may follow a number without extending it: nothing, or a
      character that is neither a digit nor an exponent mark. */
  predicate EndsNumber(rest: string)
  {
    rest == [] || (!IsDigit(rest[0]) && rest[0] != 'e' && rest[0] != 'E')
  }

  lemma DecimalLayout(q: string, f: string, rest: string)
    requires AllDigits(q) && f != [] && AllDigits(f) && EndsNumber(rest)
    ensures var t := q + "." + f + rest; var r := t[|q| + 1..];
      DigitRun(t) == |q| && t[..|q|] == q && |q| < |t| && t[|q|] == '.'
      && DigitRun(r) == |f| && r[..|f|] == f && r[|f|..] == rest
  {
    var t := q + "." + f + rest;
    assert t == q + ("." + f + rest);
    DigitRunPrefix(q, "." + f + rest);
    assert t[|q| + 1..] == f + rest;
    DigitRunPrefix(f, rest);
  }

  /** `q.f` followed by what does not extend it reads as `q` plus the fraction `f`. */
  lemma ParseUnsignedDecimal(q: string, f: string, rest: string)
    requires q != [] && AllDigits(q) && f != [] && AllDigits(f) && EndsNumber(rest)
    ensures ParseUnsigned(q + "." + f + rest) == DigitsValue(q) as real + FractionValue(f)
  {
    var t := q + "." + f + rest;
    DecimalLayout(q, f, rest);
    assert Unsigned(false, t) == Reading(false, q, f, rest);
    assert ExponentValue(rest) == 0;
  }

  lemma FixedCentsValue(c: nat)
    ensures DigitsValue(NatToString(c / 100)) as real
            + FractionValue([DigitChar(c % 100 / 10), DigitChar(c % 10)]) == c as real / 100.0
  {
    var d1, d0 := DigitChar(c % 100 / 10), DigitChar(c % 10);
    assert FractionValue([d0]) == DigitValue(d0) as real / 10.0 by {
      assert [d0][1..] == [];
    }
    assert FractionValue([d1, d0]) == (DigitValue(d1) as real + DigitValue(d0) as real / 10.0) / 10.0 by {
      assert [d1, d0][1..] == [d0];
    }
    var hi, mid, lo := c / 100, c % 100 / 10, c % 10;
    assert c == 100 * hi + 10 * mid + lo;
    assert (hi as real) + ((mid as real) + (lo as real) / 10.0) / 10.0 == c as real / 100.0;
  }

  lemma ParseFixedCents(c: nat, rest: string)
    requires EndsNumber(rest)
    ensures ParseUnsigned(FixedCents(c) + rest) == c as real / 100.0
  {
    var q := NatToString(c / 100);
    var f := [DigitChar(c % 100 / 10), DigitChar(c % 10)];
    assert FixedCents(c) + rest == q + "." + f + rest;
    ParseUnsignedDecimal(q, f, rest);
    FixedCentsValue(c);
  }

  /** The printed hundredths, with or without a minus sign in front, read
      back as the signed count divided by 100. */
  lemma ParseCentsThen(c: nat, rest: string)
    requires EndsNumber(rest)
    ensures ParseNum(FixedCents(c) + rest) == c as real / 100.0
    ensures ParseNum("-" + (FixedCents(c) + rest)) == -(c as real / 100.0)
  {
    var t := FixedCents(c) + rest;
    ParseFixedCents(c, rest);
    assert t[0] == NatToString(c / 100)[0];
    ParseNumSigned(t);
  }

  /** Reading the two-decimal form back, followed by anything that does not
      extend the number (a unit, say), gives the rounded value. */
  lemma ParseFmt2Then(x: real, rest: string)
    requires EndsNumber(rest)
    ensures ParseNum(Fmt2(x) + rest) == Round2(x)
  {
    if x < 0.0 {
      ParseFmt2Negative(x, rest);
    } else {
      ParseCentsThen(Cents(x), rest);
    }
  }

  lemma ParseFmt2Negative(x: real, rest: string)
    requires x < 0.0 && EndsNumber(rest)
    ensures ParseNum(Fmt2(x) + rest) == Round2(x)
  {
    var c := Cents(-x);
    var digits := FixedCents(c);
    assert Fmt2(x) == "-" + digits;
    assert ("-" + digits) + rest == "-" + (digits + rest);
    ParseCentsThen(c, rest);
  }

  /** Reading the two-decimal form back gives the rounded value. */
  lemma ParseFmt2(x: real)
    ensures ParseNum(Fmt2(x)) == Round2(x)
  {
    ParseFmt2Then(x, []);
    assert Fmt2(x) + [] == Fmt2(x);
  }

  // ---------------------------------------------------------------------
  // toLowerCase and includes

  function LowerChar(ch: char): char
  {
    if 'A' <= ch <= 'Z' then ((ch as int) + 32) as char else ch
  }

  /** `toLowerCase`, for the ASCII letters. */
  function Lower(s: string): (r: string)
    ensures |r| == |s|
    ensures forall i :: 0 <= i < |s| ==> r[i] == LowerChar(s[i])
  {
    seq(|s|, i requires 0 <= i < |s| => LowerChar(s[i]))
  }

  /** `s.includes(sub)`: `sub` occurs in `s` at some position. */
  function Contains(s: string, sub: string): bool
  {
    sub <= s || (s != [] && Contains(s[1..], sub))
  }

  ghost predicate OccursAt(s: string, sub: string, i: nat)
  {
    i + |sub| <= |s| && s[i..i + |sub|] == sub
  }

  lemma {:induction false} ContainsAt(s: string, sub: string)
    ensures Contains(s, sub) <==> exists i: nat :: OccursAt(s, sub, i)
  {
    if sub <= s {
      assert OccursAt(s, sub, 0);
    } else if s == [] {
    } else {
      ContainsAt(s[1..], sub);
      if exists i: nat :: OccursAt(s, sub, i) {
        var i: nat :| OccursAt(s, sub, i);
        assert i != 0;
        assert s[1..][i - 1..i - 1 + |sub|] == s[i..i + |sub|];
        assert OccursAt(s[1..], sub, i - 1);
      }
      if exists i: nat :: OccursAt(s[1..], sub, i) {
        var i: nat :| OccursAt(s[1..], sub, i);
        assert s[i + 1..i + 1 + |sub|] == s[1..][i..i + |sub|];
        assert OccursAt(s, sub, i + 1);
      }
    }
  }
}
