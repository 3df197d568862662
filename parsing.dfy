/** The current-limit codec: `parse_current_input` reads a magnitude with an optional
    `A`/`mA`/`uA` unit and renders the value in amps the way the instrument expects. */
module Parsing {
  import opened Common

  /** An exponent part `[eE][-+]?\d+` as written. */
  datatype Exponent = Exponent(mark: char, sign: string, digits: string)

  /** The number part `-?\d*\.?\d+(?:[eE][-+]?\d+)?` as written: whole digits, the digits
      after a point (if there is one) and the exponent (if there is one). */
  datatype Number = Number(negative: bool, whole: string, fraction: Option<string>, exponent: Option<Exponent>)

  /** An exact decimal: (-1)^negative * coeff * 10^exp. The sign is kept apart from the
      coefficient so that a negative zero stays negative, as a float does. */
  datatype Decimal = Decimal(negative: bool, coeff: nat, exp: int)

  predicate WellFormedExponent(e: Exponent)
  {
    (e.mark == 'e' || e.mark == 'E') && (e.sign == "" || e.sign == "+" || e.sign == "-") &&
    e.digits != "" && AllDigits(e.digits)
  }

  /** A number the pattern accepts: at least one digit after the point if there is a point,
      at least one whole digit if there is none. */
  predicate WellFormed(n: Number)
  {
    AllDigits(n.whole) &&
    (match n.fraction
     case None => n.whole != ""
     case Some(f) => f != "" && AllDigits(f)) &&
    (match n.exponent
     case None => true
     case Some(e) => WellFormedExponent(e))
  }

  /** The fraction part written out in front of `rest`. */
  function FractionThen(f: Option<string>, rest: string): string
  {
    match f
    case None => rest
    case Some(d) => "." + (d + rest)
  }

  /** The exponent part written out in front of `rest`. */
  function ExponentThen(e: Option<Exponent>, rest: string): string
  {
    match e
    case None => rest
    case Some(x) => [x.mark] + (x.sign + (x.digits + rest))
  }

  /** The number written out in front of `rest`. */
  function NumberThen(n: Number, rest: string): string
  {
    (if n.negative then "-" else "") + (n.whole + FractionThen(n.fraction, ExponentThen(n.exponent, rest)))
  }

  /** The number as written. */
  function NumberText(n: Number): string
  {
    NumberThen(n, "")
  }

  lemma FractionThenText(f: Option<string>, x: string, rest: string)
    ensures FractionThen(f, x + rest) == FractionThen(f, x) + rest
  {
    if f.Some? {
      var d := f.value;
      assert "." + (d + (x + rest)) == ("." + (d + x)) + rest;
    }
  }

  lemma ExponentThenText(e: Option<Exponent>, rest: string)
    ensures ExponentThen(e, rest) == ExponentThen(e, "") + rest
  {
    if e.Some? {
      var x := e.value;
      assert x.digits + "" == x.digits;
      assert [x.mark] + (x.sign + (x.digits + rest)) == ([x.mark] + (x.sign + x.digits)) + rest;
    }
  }

  lemma NumberThenText(n: Number, rest: string)
    ensures NumberThen(n, rest) == NumberText(n) + rest
  {
    var e := ExponentThen(n.exponent, "");
    ExponentThenText(n.exponent, rest);
    FractionThenText(n.fraction, e, rest);
    var f := FractionThen(n.fraction, e);
    var sign := if n.negative then "-" else "";
    assert sign + (n.whole + (f + rest)) == (sign + (n.whole + f)) + rest;
  }

  /** The unit part `[mu]?[aA]?` matched without regard to case. */
  predicate IsUnitText(u: string)
  {
    |u| <= 2 &&
    (|u| == 1 ==> u[0] in "mMuUaA") &&
    (|u| == 2 ==> u[0] in "mMuU" && u[1] in "aA")
  }

  function LowerChar(c: char): char
  {
    if 'A' <= c <= 'Z' then (c as int + 32) as char else c
  }

  function Lower(s: string): (r: string)
    ensures |r| == |s|
  {
    if s == [] then [] else [LowerChar(s[0])] + Lower(s[1..])
  }

  /** The exact value a well-formed number denotes. */
  function Value(n: Number): Decimal
    requires WellFormed(n)
  {
    var f := match n.fraction case None => "" case Some(d) => d;
    var e: int := match n.exponent
      case None => 0
      case Some(x) => if x.sign == "-" then 0 - DigitsValue(x.digits) else DigitsValue(x.digits);
    Decimal(n.negative, DigitsValue(n.whole + f), e - |f|)
  }

  /** The value divided by 10^k. */
  function Shift(d: Decimal, k: nat): (r: Decimal)
    ensures r.negative == d.negative && r.coeff == d.coeff && r.exp == d.exp - k
  {
    Decimal(d.negative, d.coeff, d.exp - k)
  }

  function ScanExponent(negative: bool, whole: string, fraction: Option<string>, c: string): (r: Option<(Number, string)>)
    requires AllDigits(whole)
    requires match fraction case None => whole != "" case Some(f) => f != "" && AllDigits(f)
    ensures r.Some? ==> WellFormed(r.value.0) && r.value.0.negative == negative && r.value.0.whole == whole &&
                        r.value.0.fraction == fraction && ExponentThen(r.value.0.exponent, r.value.1) == c
  {
    if c != [] && (c[0] == 'e' || c[0] == 'E') then
      var p := ScanSignedDigits(c[1..]);
      if p.None? then None
      else
        var x := Exponent(c[0], p.value.0, p.value.1);
        assert c == [c[0]] + c[1..];
        Some((Number(negative, whole, fraction, Some(x)), p.value.2))
    else Some((Number(negative, whole, fraction, None), c))
  }

  /** The `[-+]?\d+` after an exponent mark: the sign, the digits and the text after them. */
  function ScanSignedDigits(d: string): (r: Option<(string, string, string)>)
    ensures r.Some? ==> (r.value.0 == "" || r.value.0 == "+" || r.value.0 == "-") && r.value.1 != "" &&
                        AllDigits(r.value.1) && r.value.0 + (r.value.1 + r.value.2) == d
  {
    var sign := if d != [] && (d[0] == '+' || d[0] == '-') then d[..1] else "";
    var e := d[|sign|..];
    assert d == sign + e;
    var digits := DigitRun(e);
    if digits == [] then None
    else
      assert e == digits + e[|digits|..];
      Some((sign, digits, e[|digits|..]))
  }

  /** Reads the number at the front of `t`; on success gives its syntax and the text after it. */
  function ScanNumber(t: string): (r: Option<(Number, string)>)
    ensures r.Some? ==> WellFormed(r.value.0) && NumberThen(r.value.0, r.value.1) == t
  {
    var negative := t != [] && t[0] == '-';
    var a := if negative then t[1..] else t;
    assert t == (if negative then "-" else "") + a;
    ScanUnsigned(negative, a)
  }

  /** The number after its sign. */
  function ScanUnsigned(negative: bool, a: string): (r: Option<(Number, string)>)
    ensures r.Some? ==> WellFormed(r.value.0) && r.value.0.negative == negative &&
                        r.value.0.whole + FractionThen(r.value.0.fraction, ExponentThen(r.value.0.exponent, r.value.1)) == a
  {
    var whole := DigitRun(a);
    var b := a[|whole|..];
    assert a == whole + b;
    if b != [] && b[0] == '.' then ScanFraction(negative, whole, b)
    else if whole == [] then None
    else ScanExponent(negative, whole, None, b)
  }

  /** The part of the number from its decimal point on. */
  function ScanFraction(negative: bool, whole: string, b: string): (r: Option<(Number, string)>)
    requires AllDigits(whole) && b != [] && b[0] == '.'
    ensures r.Some? ==> WellFormed(r.value.0) && r.value.0.negative == negative && r.value.0.whole == whole &&
                        FractionThen(r.value.0.fraction, ExponentThen(r.value.0.exponent, r.value.1)) == b
  {
    var frac := DigitRun(b[1..]);
    if frac == [] then None
    else
      var c := b[1 + |frac|..];
      assert b[1..] == frac + c;
      assert b == "." + b[1..];
      ScanExponent(negative, whole, Some(frac), c)
  }

  /** The whole pattern `^number\s*unit$` on an already stripped text: the number, the
      whitespace between number and unit, and the unit as written. */
  function MatchCurrent(t: string): (r: Option<(Number, string, string)>)
    ensures r.Some? ==> WellFormed(r.value.0) && AllSpace(r.value.1) && IsUnitText(r.value.2) &&
                        t == NumberThen(r.value.0, r.value.1 + r.value.2)
  {
    var s := ScanNumber(t);
    if s.None? then None
    else
      var tail := SplitUnit(s.value.1);
      if tail.None? then None
      else Some((s.value.0, tail.value.0, tail.value.1))
  }

  /** The tail `\s*unit` after the number: the whitespace and the unit as written. */
  function SplitUnit(rest: string): (r: Option<(string, string)>)
    ensures r.Some? ==> AllSpace(r.value.0) && IsUnitText(r.value.1) && rest == r.value.0 + r.value.1
  {
    var u := TrimStart(rest);
    var w := rest[..|rest| - |u|];
    SplitAt(rest, |rest| - |u|);
    if IsUnitText(u) then Some((w, u)) else None
  }

  /** The power of ten a lower-cased unit divides by; `None` for a unit that is not a
      current unit (a bare `m` or `u`). An absent unit means amps. */
  function UnitScale(unit: string): Option<nat>
  {
    if unit == "ma" then Some(3)
    else if unit == "ua" then Some(6)
    else if unit == "a" || unit == "" then Some(0)
    else None
  }

  /** The power of ten the unit as written divides by; no unit means amps. */
  function UnitPower(u: string): Option<nat>
  {
    UnitScale(if u == "" then "a" else Lower(u))
  }

  /** The value in amps of a stripped current text, or `None` where the source reports a
      parse error. */
  function AmpsOf(t: string): Option<Decimal>
  {
    match MatchCurrent(t)
    case None => None
    case Some((n, w, u)) =>
      match UnitPower(u)
      case None => None
      case Some(k) => Some(Shift(Value(n), k))
  }

  /** `parse_current_input`: blank input (`None` or empty) means "no limit" and gives `""`;
      otherwise the stripped text must match the pattern and carry a current unit, and the
      result is the value in amps in `%g` form; anything else gives `None`. */
  function ParseCurrentInput(input: Option<string>): (r: Option<string>)
    ensures r == Some("") <==> input == None || input == Some("")
    ensures input != None && input != Some("") && r.Some? ==> AmpsOf(Strip(input.value)).Some?
    ensures r.Some? ==> GText(r.value)
  {
    if input == None || input.value == "" then Some("")
    else
      match AmpsOf(Strip(input.value))
      case None => None
      case Some(d) => Some(FormatG(d))
  }

  // ---- %g rendering -------------------------------------------------------------------

  function Zeros(n: nat): (s: string)
    ensures |s| == n && forall i :: 0 <= i < n ==> s[i] == '0'
  {
    if n == 0 then "" else "0" + Zeros(n - 1)
  }

  /** Drops trailing zero digits. */
  function TrimZeros(s: string): (r: string)
    ensures |r| <= |s| && r == s[..|r|]
    ensures r == [] || r[|r| - 1] != '0'
    ensures s != [] && s[0] != '0' ==> r != []
  {
    if s != [] && s[|s| - 1] == '0' then TrimZeros(s[..|s| - 1]) else s
  }

  /** Everything `TrimZeros` drops is a zero digit. */
  lemma {:induction false} TrimZerosTail(s: string)
    ensures forall i :: |TrimZeros(s)| <= i < |s| ==> s[i] == '0'
    decreases |s|
  {
    if s != [] && s[|s| - 1] == '0' {
      var init := s[..|s| - 1];
      TrimZerosTail(init);
      assert TrimZeros(s) == TrimZeros(init);
      assert forall i :: 0 <= i < |init| ==> s[i] == init[i];
    }
  }

  lemma AllZeros(t: string)
    requires forall i :: 0 <= i < |t| ==> t[i] == '0'
    ensures t == Zeros(|t|)
  {
  }

  /** What `TrimZeros` drops is zeros only: putting them back gives the text again. */
  lemma TrimZerosRestores(s: string)
    ensures s == TrimZeros(s) + Zeros(|s| - |TrimZeros(s)|)
  {
    var n := |TrimZeros(s)|;
    TrimZerosTail(s);
    AllZeros(s[n..]);
    assert s == s[..n] + s[n..];
  }

  /** Rounds a positive coefficient to at most six significant digits, half to even; gives
      the rounded coefficient and the decimal exponent of its leading digit. */
  function RoundSignificant(c: nat, e: int): (r: (nat, int))
    requires c > 0
    ensures 0 < r.0 < Pow10(6)
    ensures |NatToString(c)| <= 6 ==> r == (c, |NatToString(c)| - 1 + e)
  {
    var n := |NatToString(c)|;
    NatToStringBound(c);
    if n <= 6 then
      PowMonotone(n, 6);
      (c, n - 1 + e)
    else
      var p := Pow10(n - 6);
      PowAdd(n - 6, 6);
      PowMonotone(n - 6, n - 1);
      DivBounds(c, p, Pow10(6));
      var q := c / p;
      var rem := c % p;
      var up := 2 * rem > p || (2 * rem == p && q % 2 == 1);
      var q' := if up then q + 1 else q;
      if q' == Pow10(6) then (Pow10(5), n + e) else (q', n - 1 + e)
  }

  lemma DivBounds(c: nat, p: nat, k: nat)
    requires 0 < p <= c < p * k
    ensures 1 <= c / p < k
  {
    var q := c / p;
    assert c == p * q + c % p;
  }

  lemma {:induction false} PowAdd(a: nat, b: nat)
    ensures Pow10(a + b) == Pow10(a) * Pow10(b)
    decreases a
  {
    if a > 0 {
      PowAdd(a - 1, b);
    }
  }

  lemma {:induction false} PowMonotone(a: nat, b: nat)
    requires a <= b
    ensures Pow10(a) <= Pow10(b)
    decreases b
  {
    if a < b {
      PowMonotone(a, b - 1);
    }
  }

  /** A natural with k decimal digits lies in [10^(k-1), 10^k). */
  lemma {:induction false} NatToStringBound(c: nat)
    ensures c < Pow10(|NatToString(c)|)
    ensures c > 0 ==> Pow10(|NatToString(c)| - 1) <= c
    decreases c
  {
    if c >= 10 {
      NatToStringBound(c / 10);
    }
  }

  /** The characters `%g` output is made of. */
  predicate GText(s: string)
  {
    forall i :: 0 <= i < |s| ==> s[i] in "0123456789.-+e"
  }

  /** `%g` text never holds a comma, so it is always one field of a comma-separated command. */
  lemma GTextHasNoComma(s: string)
    requires GText(s)
    ensures ',' !in s
  {
    forall i | 0 <= i < |s|
      ensures s[i] != ','
    {
      assert s[i] in "0123456789.-+e";
    }
  }

  lemma DigitsAreGText(s: string)
    requires AllDigits(s)
    ensures GText(s)
  {
    forall i | 0 <= i < |s|
      ensures s[i] in "0123456789.-+e"
    {
      assert IsDigit(s[i]);
    }
  }

  /** Fixed-point form of the significant digits `ds` whose leading digit has exponent x. */
  function Positional(ds: string, x: int): (s: string)
    requires ds != [] && AllDigits(ds)
    ensures s != [] && GText(s)
  {
    DigitsAreGText(ds);
    if x >= 0 then
      if |ds| <= x + 1 then
        var z := Zeros(x + 1 - |ds|);
        DigitsAreGText(z);
        ds + z
      else ds[..x + 1] + "." + ds[x + 1..]
    else
      var z := Zeros(-x - 1);
      DigitsAreGText(z);
      "0." + z + ds
  }

  /** Exponent form `d[.ddddd]e±XX` with at least two exponent digits. */
  function Scientific(ds: string, x: int): (s: string)
    requires ds != [] && AllDigits(ds)
    ensures s != [] && GText(s)
  {
    var mag: nat := if x < 0 then -x else x;
    var ex := NatToString(mag);
    var ex2 := if |ex| < 2 then "0" + ex else ex;
    DigitsAreGText(ds);
    DigitsAreGText(ex);
    assert GText(ex2);
    var mantissa := [ds[0]] + (if |ds| > 1 then "." + ds[1..] else "");
    assert GText(mantissa);
    mantissa + "e" + (if x < 0 then "-" else "+") + ex2
  }

  /** Python's `format(value, 'g')`: six significant digits, trailing zeros dropped,
      exponent form when the exponent is below -4 or at least 6; zero prints as `0`, a
      negative zero as `-0`. */
  function FormatG(d: Decimal): (s: string)
    ensures s != [] && GText(s)
  {
    (if d.negative then "-" else "") + Magnitude(d.coeff, d.exp)
  }

  /** `%g` of the magnitude coeff * 10^exp. */
  function Magnitude(coeff: nat, exp: int): (s: string)
    ensures s != [] && GText(s)
  {
    if coeff == 0 then "0"
    else
      var p := RoundSignificant(coeff, exp);
      Render(TrimZeros(NatToString(p.0)), p.1)
  }

  /** The significant digits `ds` whose leading digit has exponent `x`, in fixed-point or
      exponent form. */
  function Render(ds: string, x: int): (s: string)
    requires ds != [] && AllDigits(ds)
    ensures s != [] && GText(s)
  {
    if -4 <= x < 6 then Positional(ds, x) else Scientific(ds, x)
  }

  // ---- properties -----------------------------------------------------------------------

  /** A character that could continue a number: the scanner never stops before one. */
  predicate Continues(c: char)
  {
    IsDigit(c) || c == '.' || c == 'e' || c == 'E'
  }

  lemma ScanExponentComplete(n: Number, rest: string)
    requires WellFormed(n)
    requires rest == [] || !Continues(rest[0])
    ensures ScanExponent(n.negative, n.whole, n.fraction, ExponentThen(n.exponent, rest)) == Some((n, rest))
  {
    if n.exponent.Some? {
      var x := n.exponent.value;
      var c := ExponentThen(n.exponent, rest);
      assert c[1..] == x.sign + (x.digits + rest);
      ScanSignedDigitsComplete(x.sign, x.digits, rest);
    }
  }

  lemma ScanSignedDigitsComplete(sign: string, digits: string, rest: string)
    requires sign == "" || sign == "+" || sign == "-"
    requires digits != [] && AllDigits(digits)
    requires rest == [] || !IsDigit(rest[0])
    ensures ScanSignedDigits(sign + (digits + rest)) == Some((sign, digits, rest))
  {
    var d := sign + (digits + rest);
    assert d[|sign|..] == digits + rest;
    if sign == "" {
      assert IsDigit(d[0]);
    } else {
      assert d[..1] == sign;
    }
    DigitRunConcat(digits, rest);
    assert (digits + rest)[|digits|..] == rest;
  }

  lemma ScanFractionComplete(n: Number, rest: string)
    requires WellFormed(n) && n.fraction.Some?
    requires rest == [] || !Continues(rest[0])
    ensures ScanFraction(n.negative, n.whole, FractionThen(n.fraction, ExponentThen(n.exponent, rest))) == Some((n, rest))
  {
    var f := n.fraction.value;
    var c := ExponentThen(n.exponent, rest);
    var b := FractionThen(n.fraction, c);
    assert b[1..] == f + c;
    assert c == [] || !IsDigit(c[0]);
    DigitRunConcat(f, c);
    assert b[1 + |f|..] == c;
    ScanExponentComplete(n, rest);
  }

  lemma ScanUnsignedComplete(n: Number, rest: string)
    requires WellFormed(n)
    requires rest == [] || !Continues(rest[0])
    ensures ScanUnsigned(n.negative, n.whole + FractionThen(n.fraction, ExponentThen(n.exponent, rest))) == Some((n, rest))
  {
    var b := FractionThen(n.fraction, ExponentThen(n.exponent, rest));
    var a := n.whole + b;
    assert b == [] || !IsDigit(b[0]);
    DigitRunConcat(n.whole, b);
    assert a[|n.whole|..] == b;
    if n.fraction.Some? {
      ScanFractionComplete(n, rest);
    } else {
      ScanExponentComplete(n, rest);
    }
  }

  /** The scanner reads back exactly the number written in front of any text that cannot
      continue it. */
  lemma ScanNumberComplete(n: Number, rest: string)
    requires WellFormed(n)
    requires rest == [] || !Continues(rest[0])
    ensures ScanNumber(NumberThen(n, rest)) == Some((n, rest))
  {
    var a := n.whole + FractionThen(n.fraction, ExponentThen(n.exponent, rest));
    var t := NumberThen(n, rest);
    if n.negative {
      assert t[1..] == a;
    } else {
      assert t == a;
      assert a[0] == '.' || IsDigit(a[0]);
    }
    ScanUnsignedComplete(n, rest);
  }

  lemma {:induction false} LowerUnit(u: string)
    requires IsUnitText(u)
    ensures Lower(u) in {"", "a", "m", "u", "ma", "ua"}
  {
    if |u| >= 1 {
      assert Lower(u)[0] == LowerChar(u[0]);
    }
    if |u| == 2 {
      assert Lower(u)[1] == LowerChar(u[1]);
      assert Lower(u) == [LowerChar(u[0]), LowerChar(u[1])];
    } else if |u| == 1 {
      assert Lower(u) == [LowerChar(u[0])];
    }
  }

  /** The last character of a number is a digit (of the exponent, the fraction or the whole
      part). */
  lemma NumberEndsInDigit(n: Number)
    requires WellFormed(n)
    ensures NumberText(n) != [] && IsDigit(NumberText(n)[|NumberText(n)| - 1])
  {
    var e := ExponentThen(n.exponent, "");
    var f := FractionThen(n.fraction, e);
    var t := NumberText(n);
    if n.exponent.Some? {
      var x := n.exponent.value;
      assert e == [x.mark] + (x.sign + (x.digits + ""));
      assert e[|e| - 1] == x.digits[|x.digits| - 1];
    }
    if n.fraction.Some? {
      assert f[|f| - 1] == (if e == [] then n.fraction.value[|n.fraction.value| - 1] else e[|e| - 1]);
    }
    assert t[|t| - 1] == (if f == [] then n.whole[|n.whole| - 1] else f[|f| - 1]);
  }

  /** The number, the whitespace and a unit are split back apart exactly (whitespace
      without a unit after it cannot occur in a stripped text). */
  lemma MatchCurrentComplete(n: Number, w: string, u: string)
    requires WellFormed(n) && AllSpace(w) && IsUnitText(u)
    requires u == [] ==> w == []
    ensures MatchCurrent(NumberThen(n, w + u)) == Some((n, w, u))
  {
    var rest := w + u;
    if w != [] {
      assert IsSpace(rest[0]);
    } else {
      assert rest == u;
    }
    ScanNumberComplete(n, rest);
    SplitUnitComplete(w, u);
  }

  lemma SplitUnitComplete(w: string, u: string)
    requires AllSpace(w) && IsUnitText(u)
    ensures SplitUnit(w + u) == Some((w, u))
  {
    TrimStartSpaces(w, u);
    assert (w + u)[..|w|] == w;
  }

  /** Whitespace around a current text is what `strip()` removes. */
  lemma StripCurrent(l: string, n: Number, w: string, u: string, r: string)
    requires AllSpace(l) && AllSpace(r) && WellFormed(n)
    requires u == [] || !IsSpace(u[|u| - 1])
    requires u == [] ==> w == []
    ensures Strip(l + NumberThen(n, w + u) + r) == NumberThen(n, w + u)
  {
    var x := NumberThen(n, w + u);
    NumberThenText(n, w + u);
    NumberEndsInDigit(n);
    var t := NumberText(n);
    if u == [] {
      assert x == t + [];
    } else {
      assert x[|x| - 1] == u[|u| - 1];
    }
    assert x[0] == t[0];
    StripSurrounded(l, x, r);
  }

  /** Every current text around which there is only whitespace is accepted exactly when
      its unit is a current unit, and then gives the value the number denotes divided by
      the power of ten the unit names (`UnitPowers` says which). */
  lemma ParseCurrentAccepts(l: string, n: Number, w: string, u: string, r: string)
    requires AllSpace(l) && AllSpace(r) && AllSpace(w)
    requires WellFormed(n) && IsUnitText(u)
    requires u == [] ==> w == []
    ensures ParseCurrentInput(Some(l + NumberThen(n, w + u) + r)) ==
            if UnitPower(u).Some? then Some(FormatG(Shift(Value(n), UnitPower(u).value))) else None
  {
    var s := l + NumberThen(n, w + u) + r;
    assert u != [] ==> u[|u| - 1] in "mMuUaA";
    StripCurrent(l, n, w, u, r);
    MatchCurrentComplete(n, w, u);
    AmpsOfCurrent(n, w, u);
    ParseCurrentOfAmps(s);
  }

  /** The units, read without regard to case: none or `A` is amps, `mA` divides by 10^3,
      `uA` by 10^6, and a bare `m` or `u` is refused. */
  lemma UnitPowers(u: string)
    requires IsUnitText(u)
    ensures UnitPower(u) == Some(0) <==> u == "" || Lower(u) == "a"
    ensures UnitPower(u) == Some(3) <==> Lower(u) == "ma"
    ensures UnitPower(u) == Some(6) <==> Lower(u) == "ua"
    ensures UnitPower(u) == None <==> Lower(u) == "m" || Lower(u) == "u"
  {
    LowerUnit(u);
  }

  lemma AmpsOfCurrent(n: Number, w: string, u: string)
    requires WellFormed(n) && MatchCurrent(NumberThen(n, w + u)) == Some((n, w, u))
    ensures AmpsOf(NumberThen(n, w + u)) == if UnitPower(u).Some? then Some(Shift(Value(n), UnitPower(u).value)) else None
  {
  }

  lemma ParseCurrentOfAmps(s: string)
    requires s != []
    ensures ParseCurrentInput(Some(s)) == if AmpsOf(Strip(s)).Some? then Some(FormatG(AmpsOf(Strip(s)).value)) else None
  {
  }

  /** Conversely, every accepted non-blank input is a number with optional unit and
      surrounding whitespace, and the result is the value in amps of that number. */
  lemma ParseCurrentAccepted(s: string) returns (l: string, n: Number, w: string, u: string, r: string)
    requires s != "" && ParseCurrentInput(Some(s)).Some?
    ensures s == l + NumberThen(n, w + u) + r
    ensures AllSpace(l) && AllSpace(r) && AllSpace(w) && WellFormed(n) && IsUnitText(u)
    ensures UnitPower(u).Some? && ParseCurrentInput(Some(s)) == Some(FormatG(Shift(Value(n), UnitPower(u).value)))
  {
    var t;
    l, t, r := StripParts(s);
    ParseCurrentOfAmps(s);
    var m := MatchCurrent(t).value;
    n, w, u := m.0, m.1, m.2;
    AmpsOfCurrent(n, w, u);
  }

  /** A text is its leading whitespace, its stripped form and its trailing whitespace. */
  lemma StripParts(s: string) returns (l: string, t: string, r: string)
    ensures s == l + t + r && t == Strip(s) && AllSpace(l) && AllSpace(r)
  {
    var ts := TrimStart(s);
    var k := |s| - |ts|;
    l := s[..k];
    t := TrimEnd(ts);
    r := ts[|t|..];
    SplitAt(s, k);
    SplitAt(ts, |t|);
    Assoc(l, t, r);
  }

  /** Whitespace alone is not blank: it strips to nothing, which the pattern refuses. */
  lemma ParseCurrentWhitespace(s: string)
    requires s != "" && AllSpace(s)
    ensures ParseCurrentInput(Some(s)) == None
  {
    StripAllSpace(s);
  }

  /** Integers below a million print as their decimal digits. */
  lemma FormatGInteger(c: nat)
    requires 0 < c < Pow10(6)
    ensures FormatG(Decimal(false, c, 0)) == NatToString(c)
  {
    MagnitudeInteger(c);
    assert "" + NatToString(c) == NatToString(c);
  }

  lemma MagnitudeInteger(c: nat)
    requires 0 < c < Pow10(6)
    ensures Magnitude(c, 0) == NatToString(c)
  {
    var s := NatToString(c);
    FewDigits(c);
    assert RoundSignificant(c, 0) == (c, |s| - 1);
    RenderWhole(s);
  }

  lemma PrefixDigits(s: string, n: nat)
    requires AllDigits(s) && n <= |s|
    ensures AllDigits(s[..n])
  {
  }

  lemma RenderPositional(ds: string, x: int)
    requires ds != [] && AllDigits(ds) && -4 <= x < 6
    ensures Render(ds, x) == Positional(ds, x)
  {
  }

  lemma PositionalPadded(ds: string, x: int)
    requires ds != [] && AllDigits(ds) && 0 <= x && |ds| <= x + 1
    ensures Positional(ds, x) == ds + Zeros(x + 1 - |ds|)
  {
  }

  /** Digits of a whole number of at most six digits are rendered as they are. */
  lemma RenderWhole(s: string)
    requires s != [] && AllDigits(s) && s[0] != '0' && |s| <= 6
    ensures Render(TrimZeros(s), |s| - 1) == s
  {
    var ds := TrimZeros(s);
    PrefixDigits(s, |ds|);
    RenderPositional(ds, |s| - 1);
    PositionalPadded(ds, |s| - 1);
    TrimZerosRestores(s);
  }

  lemma FewDigits(c: nat)
    requires 0 < c < Pow10(6)
    ensures |NatToString(c)| <= 6
  {
    NatToStringBound(c);
    var k := |NatToString(c)|;
    if k > 6 {
      PowMonotone(6, k - 1);
      assert false;
    }
  }

  lemma FormatGExamples()
    ensures FormatG(Decimal(false, 10, -3)) == "0.01"
  {
    assert NatToString(10) == "10";
    assert RoundSignificant(10, -3) == (10, -2);
    assert TrimZeros("10") == "1";
    assert Zeros(1) == "0";
    assert Render("1", -2) == "0.01";
    assert Magnitude(10, -3) == "0.01";
  }

  /** `10mA` is 0.01 A. */
  lemma ParseTenMilliamps()
    ensures ParseCurrentInput(Some("10mA")) == Some("0.01")
  {
    var ten := Number(false, "10", None, None);
    assert "10mA" == "" + NumberThen(ten, "" + "mA") + "";
    ParseCurrentAccepts("", ten, "", "mA", "");
    UnitValues();
    DigitValues();
    FormatGExamples();
  }

  /** A bare `15` is 15 A. */
  lemma ParseFifteen()
    ensures ParseCurrentInput(Some("15")) == Some("15")
  {
    var fifteen := Number(false, "15", None, None);
    assert "15" == "" + NumberThen(fifteen, "" + "") + "";
    ParseCurrentAccepts("", fifteen, "", "", "");
    UnitValues();
    DigitValues();
    FormatGInteger(15);
  }

  /** A bare milli prefix is not a unit. */
  lemma ParseBareMilli()
    ensures ParseCurrentInput(Some("10 m")) == None
  {
    var ten := Number(false, "10", None, None);
    assert "10 m" == "" + NumberThen(ten, " " + "m") + "";
    assert AllSpace(" ");
    ParseCurrentAccepts("", ten, " ", "m", "");
    UnitValues();
  }

  lemma DigitValues()
    ensures Value(Number(false, "10", None, None)) == Decimal(false, 10, 0)
    ensures Value(Number(false, "15", None, None)) == Decimal(false, 15, 0)
    ensures NatToString(15) == "15"
  {
    assert DigitsValue("1") == 1;
    assert "10" + "" == "10" && "15" + "" == "15";
  }

  lemma UnitValues()
    ensures UnitPower("mA") == Some(3) && UnitPower("") == Some(0) && UnitPower("m") == None
  {
    assert Lower("mA") == "ma";
    assert Lower("m") == "m";
  }

  /** A point needs a digit after it. */
  lemma ParseTrailingPoint()
    ensures ParseCurrentInput(Some("5.")) == None
  {
    StripSurrounded("", "5.", "");
    assert "" + "5." + "" == "5.";
    assert DigitRun("5.") == "5";
    assert DigitRun("") == "";
    assert ScanNumber("5.") == None;
    ParseCurrentOfAmps("5.");
  }
}
