/** Python's int() and float() on command arguments and str() of numbers,
    over ASCII decimal text. */
module PyNumber {
  import opened Wrappers

  predicate IsDigit(c: char)
  {
    '0' <= c <= '9'
  }

  function DigitValue(c: char): (d: nat)
    requires IsDigit(c)
    ensures d < 10
  {
    c as int - '0' as int
  }

  function DigitChar(d: nat): (c: char)
    requires d < 10
    ensures IsDigit(c) && DigitValue(c) == d
  {
    ('0' as int + d) as char
  }

  /** Digits in which single underscores may stand between two digits, as
      int() and float() accept them ("1_000"). */
  predicate IsDigitRun(s: string)
  {
    && |s| > 0
    && IsDigit(s[0])
    && IsDigit(s[|s| - 1])
    && (forall i :: 0 <= i < |s| ==> IsDigit(s[i]) || s[i] == '_')
    && (forall i :: 0 <= i < |s| - 1 ==> IsDigit(s[i]) || IsDigit(s[i + 1]))
  }

  /** The digits of s read in base ten, underscores skipped. */
  function RunValue(s: string): nat
  {
    if s == [] then 0
    else if IsDigit(s[|s| - 1]) then 10 * RunValue(s[..|s| - 1]) + DigitValue(s[|s| - 1])
    else RunValue(s[..|s| - 1])
  }

  /** How many digits s holds. */
  function DigitCount(s: string): nat
  {
    if s == [] then 0
    else (if IsDigit(s[|s| - 1]) then 1 else 0) + DigitCount(s[..|s| - 1])
  }

  /** Python's int(s) on a string with no surrounding whitespace: an optional
      sign and a digit run; anything else raises ValueError (None here). */
  function ParseInt(s: string): (r: Option<int>)
    ensures r.Some? <==> IsDigitRun(s) || (|s| > 0 && (s[0] == '+' || s[0] == '-') && IsDigitRun(s[1..]))
    ensures r.Some? ==> forall i :: 0 <= i < |s| ==> IsDigit(s[i]) || s[i] in "_+-"
    ensures r.Some? ==> |s| > 0 && IsDigit(s[|s| - 1])
  {
    if |s| > 0 && (s[0] == '+' || s[0] == '-') then
      if IsDigitRun(s[1..]) then
        Some(if s[0] == '-' then -(RunValue(s[1..]) as int) else RunValue(s[1..]))
      else None
    else if IsDigitRun(s) then Some(RunValue(s))
    else None
  }

  /** What int() makes of some typical words: leading zeros, an explicit
      sign and grouping underscores are accepted. */
  lemma ParseIntExamples()
    ensures ParseInt("007") == Some(7)
    ensures ParseInt("+5") == Some(5)
    ensures ParseInt("-12") == Some(-12)
    ensures ParseInt("1_0") == Some(10)
  {
    assert RunValue("00") == 0;
    assert RunValue("007") == 7;
    assert RunValue("1") == 1;
    assert RunValue("12") == 12;
    assert RunValue("1_") == 1;
    assert RunValue("1_0") == 10;
  }

  /** A point, a doubled or leading underscore and the empty text are
      refused. */
  lemma ParseIntRefusals()
    ensures ParseInt("20.0") == None
    ensures ParseInt("1__0") == None
    ensures ParseInt("_1") == None
    ensures ParseInt("") == None
  {
    assert !IsDigit('.');
    assert "20.0"[2] == '.';
    assert "1__0"[1] == '_' && "1__0"[2] == '_';
  }

  /** str(n) for a non-negative int: its decimal digits, no leading zero. */
  function NatText(n: nat): (r: string)
    ensures IsDigitRun(r) && RunValue(r) == n
    ensures forall i :: 0 <= i < |r| ==> IsDigit(r[i])
    ensures r[0] != '0' || r == "0"
  {
    if n < 10 then [DigitChar(n)]
    else
      var r := NatText(n / 10) + [DigitChar(n % 10)];
      assert r[..|r| - 1] == NatText(n / 10);
      r
  }

  /** str(n) for an int. */
  function IntText(n: int): (r: string)
    ensures |r| > 0
    ensures forall i :: 0 <= i < |r| ==> IsDigit(r[i]) || (i == 0 && r[i] == '-')
  {
    if n < 0 then "-" + NatText(-n) else NatText(n)
  }

  /** int() reads back what str() wrote for an int. */
  lemma ParseIntOfIntText(n: int)
    ensures ParseInt(IntText(n)) == Some(n)
  {
    if n < 0 {
      assert IntText(n)[1..] == NatText(-n);
    }
  }

  function Pow10(k: nat): (r: real)
    ensures r >= 1.0
  {
    if k == 0 then 1.0 else 10.0 * Pow10(k - 1)
  }

  /** 10 raised to an int exponent. */
  function Scale(e: int): (r: real)
    ensures r > 0.0
  {
    if e >= 0 then Pow10(e) else 1.0 / Pow10(-e)
  }

  /** Index of the first exponent marker ('e' or 'E') in s, |s| if none. */
  function ExponentAt(s: string): (i: nat)
    ensures i <= |s|
    ensures i < |s| ==> s[i] == 'e' || s[i] == 'E'
    ensures forall j :: 0 <= j < i ==> s[j] != 'e' && s[j] != 'E'
  {
    if s == [] || s[0] == 'e' || s[0] == 'E' then 0 else 1 + ExponentAt(s[1..])
  }

  /** The value of an unsigned decimal mantissa: digits, optionally a point
      and more digits, at least one digit on one side of the point. */
  function MantissaValue(m: string): Option<real>
  {
    if '.' in m then
      var whole := m[..IndexOfPoint(m)];
      var frac := m[IndexOfPoint(m) + 1..];
      if (whole == [] || IsDigitRun(whole)) && (frac == [] || IsDigitRun(frac)) && !(whole == [] && frac == [])
      then Some(RunValue(whole) as real + RunValue(frac) as real / Pow10(DigitCount(frac)))
      else None
    else if IsDigitRun(m) then Some(RunValue(m) as real)
    else None
  }

  function IndexOfPoint(s: string): (i: nat)
    requires '.' in s
    ensures i < |s| && s[i] == '.' && '.' !in s[..i]
  {
    if s[0] == '.' then 0
    else
      assert s == [s[0]] + s[1..];
      1 + IndexOfPoint(s[1..])
  }

  /** An unsigned decimal literal with an optional exponent ("2.5", "1e3"). */
  function UnsignedFloat(body: string): Option<real>
  {
    var e := ExponentAt(body);
    var mantissa := MantissaValue(body[..e]);
    var exponent := if e < |body| then ParseInt(body[e + 1..]) else Some(0);
    if mantissa.Some? && exponent.Some? then Some(Scaled(mantissa.value, exponent.value)) else None
  }

  /** A mantissa times ten to an exponent, one power of ten at a time. */
  function Scaled(mantissa: real, exponent: int): real
    decreases if exponent < 0 then -exponent else exponent
  {
    if exponent == 0 then mantissa
    else if exponent > 0 then 10.0 * Scaled(mantissa, exponent - 1)
    else Scaled(mantissa, exponent + 1) / 10.0
  }

  /** Scaling is multiplication by 10 to the exponent. */
  lemma {:induction false} ScaledIsProduct(mantissa: real, exponent: int)
    ensures Scaled(mantissa, exponent) == mantissa * Scale(exponent)
  {
    if exponent >= 0 {
      ScaledUp(mantissa, exponent);
    } else {
      ScaledDown(mantissa, -exponent);
      var x, p := Scaled(mantissa, exponent), Pow10(-exponent);
      assert x == mantissa / p;
    }
  }

  lemma {:induction false} ScaledUp(mantissa: real, k: nat)
    ensures Scaled(mantissa, k) == mantissa * Pow10(k)
  {
    if k > 0 {
      ScaledUp(mantissa, k - 1);
      var p := Pow10(k - 1);
      assert Scaled(mantissa, k) == 10.0 * (mantissa * p);
      assert Pow10(k) == 10.0 * p;
    }
  }

  lemma {:induction false} ScaledDown(mantissa: real, k: nat)
    ensures Scaled(mantissa, -(k as int)) * Pow10(k) == mantissa
  {
    if k > 0 {
      ScaledDown(mantissa, k - 1);
      var p := Pow10(k - 1);
      var x := Scaled(mantissa, -(k as int));
      assert x == Scaled(mantissa, -(k - 1)) / 10.0;
      assert Pow10(k) == 10.0 * p;
      assert x * Pow10(k) == Scaled(mantissa, -(k - 1)) * p;
    }
  }

  /** Python's float(s) on a string with no surrounding whitespace, for
      decimal literals with an optional sign and exponent; anything else
      raises ValueError (None here). Values are exact reals. */
  function ParseFloat(s: string): (r: Option<real>)
    ensures ParseInt(s).Some? ==> r == Some(ParseInt(s).value as real)
  {
    if |s| > 0 && s[0] == '-' then
      FloatOfRun(s[1..]);
      match UnsignedFloat(s[1..])
      case Some(v) => Some(-v)
      case None => None
    else if |s| > 0 && s[0] == '+' then
      FloatOfRun(s[1..]);
      UnsignedFloat(s[1..])
    else
      FloatOfRun(s);
      UnsignedFloat(s)
  }

  /** A digit run, underscores included, is a mantissa with no point and no
      exponent. */
  lemma FloatOfRun(body: string)
    ensures IsDigitRun(body) ==> UnsignedFloat(body) == Some(RunValue(body) as real)
  {
    if IsDigitRun(body) {
      RunNoExponent(body);
      RunMantissa(body);
      assert body[..|body|] == body;
    }
  }

  lemma RunNoExponent(body: string)
    requires IsDigitRun(body)
    ensures ExponentAt(body) == |body|
  {
    assert forall i :: 0 <= i < |body| ==> body[i] != 'e' && body[i] != 'E';
    NoExponent(body);
  }

  lemma RunMantissa(body: string)
    requires IsDigitRun(body)
    ensures MantissaValue(body) == Some(RunValue(body) as real)
  {
    RunHasNoPoint(body);
  }

  lemma {:induction false} NoExponent(s: string)
    requires forall i :: 0 <= i < |s| ==> s[i] != 'e' && s[i] != 'E'
    ensures ExponentAt(s) == |s|
  {
    if s != [] {
      NoExponent(s[1..]);
    }
  }

  /** What a valid mantissa is made of: digits, underscores and one point
      at most; it starts with a digit or the point, never with a sign. */
  lemma {:induction false} MantissaChars(m: string)
    requires MantissaValue(m).Some?
    ensures |m| > 0 && (IsDigit(m[0]) || m[0] == '.')
    ensures forall i :: 0 <= i < |m| ==> IsDigit(m[i]) || m[i] == '_' || m[i] == '.'
  {
    if '.' in m {
      var p := IndexOfPoint(m);
      var whole := m[..p];
      var frac := m[p + 1..];
      forall i | 0 <= i < |m|
        ensures IsDigit(m[i]) || m[i] == '_' || m[i] == '.'
      {
        if i < p {
          assert m[i] == whole[i];
        } else if i > p {
          assert m[i] == frac[i - p - 1];
        }
      }
      if p > 0 {
        assert m[0] == whole[0];
      }
    }
  }

  /** A valid mantissa with no exponent reads as its own value. */
  lemma {:induction false} UnsignedOfMantissa(m: string)
    requires MantissaValue(m).Some?
    ensures UnsignedFloat(m) == MantissaValue(m)
  {
    MantissaChars(m);
    assert forall i :: 0 <= i < |m| ==> m[i] != 'e' && m[i] != 'E';
    NoExponent(m);
    assert m[..|m|] == m;
  }

  /** The first point of whole + "." + frac stands right after whole. */
  lemma {:induction false} PointAfter(whole: string, frac: string)
    requires '.' !in whole
    ensures IndexOfPoint(whole + "." + frac) == |whole|
  {
    if whole != [] {
      var m := whole + "." + frac;
      assert m[0] == whole[0];
      assert m[1..] == whole[1..] + "." + frac;
      PointAfter(whole[1..], frac);
    }
  }

  /** The mantissa whole.frac: the whole digits plus the fraction digits
      scaled down by their count. */
  lemma {:induction false} PointMantissa(whole: string, frac: string)
    requires whole == [] || IsDigitRun(whole)
    requires frac == [] || IsDigitRun(frac)
    requires whole != [] || frac != []
    ensures MantissaValue(whole + "." + frac)
            == Some(RunValue(whole) as real + RunValue(frac) as real / Pow10(DigitCount(frac)))
  {
    var m := whole + "." + frac;
    if whole != [] {
      RunHasNoPoint(whole);
    }
    PointAfter(whole, frac);
    assert m[|whole|] == '.';
    assert m[..|whole|] == whole;
    assert m[|whole| + 1..] == frac;
  }

  lemma RunHasNoPoint(s: string)
    requires IsDigitRun(s)
    ensures '.' !in s
  {
    forall i | 0 <= i < |s|
      ensures s[i] != '.'
    {
      assert IsDigit(s[i]) || s[i] == '_';
    }
  }

  /** The exponent marker after a marker-free mantissa is the first one. */
  lemma {:induction false} ExponentAfter(m: string, c: char, e: string)
    requires c == 'e' || c == 'E'
    requires forall i :: 0 <= i < |m| ==> m[i] != 'e' && m[i] != 'E'
    ensures ExponentAt(m + [c] + e) == |m|
  {
    if m != [] {
      assert (m + [c] + e)[0] == m[0];
      assert (m + [c] + e)[1..] == m[1..] + [c] + e;
      ExponentAfter(m[1..], c, e);
    }
  }

  /** A mantissa, an exponent marker and a text int() accepts: the mantissa
      times ten to that power. */
  lemma {:induction false} UnsignedWithExponent(m: string, c: char, e: string)
    requires MantissaValue(m).Some? && ParseInt(e).Some? && (c == 'e' || c == 'E')
    ensures UnsignedFloat(m + [c] + e) == Some(Scaled(MantissaValue(m).value, ParseInt(e).value))
  {
    MantissaChars(m);
    assert forall i :: 0 <= i < |m| ==> m[i] != 'e' && m[i] != 'E';
    ExponentAfter(m, c, e);
    var body := m + [c] + e;
    var x := ExponentAt(body);
    assert x == |m| && x < |body|;
    assert body[..x] == m;
    assert body[x + 1..] == e;
  }

  /** A text that starts with a digit or a point reads unsigned. */
  lemma {:induction false} FloatUnsignedText(body: string, v: real)
    requires |body| > 0 && (IsDigit(body[0]) || body[0] == '.')
    requires UnsignedFloat(body) == Some(v)
    ensures ParseFloat(body) == Some(v)
  {
  }

  /** A leading '+' keeps the value of what follows it. */
  lemma {:induction false} FloatPlusText(body: string, v: real)
    requires UnsignedFloat(body) == Some(v)
    ensures ParseFloat("+" + body) == Some(v)
  {
    var s := "+" + body;
    assert s[0] == '+' && s[1..] == body;
  }

  /** A leading '-' negates the value of what follows it. */
  lemma {:induction false} FloatMinusText(body: string, v: real)
    requires UnsignedFloat(body) == Some(v)
    ensures ParseFloat("-" + body) == Some(-v)
  {
    var s := "-" + body;
    assert s[0] == '-' && s[1..] == body;
  }

  /** whole.frac read unsigned, and where it starts. */
  lemma {:induction false} PointUnsigned(whole: string, frac: string) returns (v: real)
    requires whole == [] || IsDigitRun(whole)
    requires frac == [] || IsDigitRun(frac)
    requires whole != [] || frac != []
    ensures v == RunValue(whole) as real + RunValue(frac) as real / Pow10(DigitCount(frac))
    ensures UnsignedFloat(whole + "." + frac) == Some(v)
    ensures IsDigit((whole + "." + frac)[0]) || (whole + "." + frac)[0] == '.'
  {
    v := RunValue(whole) as real + RunValue(frac) as real / Pow10(DigitCount(frac));
    var m := whole + "." + frac;
    PointMantissa(whole, frac);
    UnsignedOfMantissa(m);
    MantissaChars(m);
  }

  /** float() on a text with a point: whole digits, the point, fraction
      digits (either side may be empty, not both). */
  lemma {:induction false} FloatOfPoint(whole: string, frac: string)
    requires whole == [] || IsDigitRun(whole)
    requires frac == [] || IsDigitRun(frac)
    requires whole != [] || frac != []
    ensures ParseFloat(whole + "." + frac) == Some(RunValue(whole) as real + RunValue(frac) as real / Pow10(DigitCount(frac)))
  {
    var v := PointUnsigned(whole, frac);
    FloatUnsignedText(whole + "." + frac, v);
  }

  /** The same text with a plus sign in front. */
  lemma {:induction false} FloatOfPlusPoint(whole: string, frac: string)
    requires whole == [] || IsDigitRun(whole)
    requires frac == [] || IsDigitRun(frac)
    requires whole != [] || frac != []
    ensures ParseFloat("+" + (whole + "." + frac)) == Some(RunValue(whole) as real + RunValue(frac) as real / Pow10(DigitCount(frac)))
  {
    var v := PointUnsigned(whole, frac);
    FloatPlusText(whole + "." + frac, v);
  }

  /** The same text with a minus sign in front: the negated value. */
  lemma {:induction false} FloatOfMinusPoint(whole: string, frac: string)
    requires whole == [] || IsDigitRun(whole)
    requires frac == [] || IsDigitRun(frac)
    requires whole != [] || frac != []
    ensures ParseFloat("-" + (whole + "." + frac)) == Some(-(RunValue(whole) as real + RunValue(frac) as real / Pow10(DigitCount(frac))))
  {
    var v := PointUnsigned(whole, frac);
    FloatMinusText(whole + "." + frac, v);
  }

  /** m, the marker and e read unsigned, and where it starts. */
  lemma {:induction false} ExponentUnsigned(m: string, c: char, e: string) returns (v: real)
    requires MantissaValue(m).Some? && ParseInt(e).Some? && (c == 'e' || c == 'E')
    ensures v == Scaled(MantissaValue(m).value, ParseInt(e).value)
    ensures UnsignedFloat(m + [c] + e) == Some(v)
    ensures IsDigit((m + [c] + e)[0]) || (m + [c] + e)[0] == '.'
  {
    v := Scaled(MantissaValue(m).value, ParseInt(e).value);
    UnsignedWithExponent(m, c, e);
    MantissaChars(m);
    assert (m + [c] + e)[0] == m[0];
  }

  /** float() on a text with an exponent: a mantissa (digits, with or
      without a point), 'e' or 'E', then a signed integer. */
  lemma {:induction false} FloatOfExponent(m: string, c: char, e: string)
    requires MantissaValue(m).Some? && ParseInt(e).Some? && (c == 'e' || c == 'E')
    ensures ParseFloat(m + [c] + e) == Some(Scaled(MantissaValue(m).value, ParseInt(e).value))
  {
    var v := ExponentUnsigned(m, c, e);
    FloatUnsignedText(m + [c] + e, v);
  }

  /** The same text with a plus sign in front. */
  lemma {:induction false} FloatOfPlusExponent(m: string, c: char, e: string)
    requires MantissaValue(m).Some? && ParseInt(e).Some? && (c == 'e' || c == 'E')
    ensures ParseFloat("+" + (m + [c] + e)) == Some(Scaled(MantissaValue(m).value, ParseInt(e).value))
  {
    var v := ExponentUnsigned(m, c, e);
    FloatPlusText(m + [c] + e, v);
  }

  /** The same text with a minus sign in front: the negated value. */
  lemma {:induction false} FloatOfMinusExponent(m: string, c: char, e: string)
    requires MantissaValue(m).Some? && ParseInt(e).Some? && (c == 'e' || c == 'E')
    ensures ParseFloat("-" + (m + [c] + e)) == Some(-Scaled(MantissaValue(m).value, ParseInt(e).value))
  {
    var v := ExponentUnsigned(m, c, e);
    FloatMinusText(m + [c] + e, v);
  }

  /** An unsigned run of digits has no point and no exponent marker. */
  lemma {:induction false} ParseFloatOfDigits(body: string)
    requires |body| > 0 && forall i :: 0 <= i < |body| ==> IsDigit(body[i])
    ensures ExponentAt(body) == |body|
    ensures MantissaValue(body) == Some(RunValue(body) as real)
  {
    assert '.' !in body;
  }

  lemma ParseFloatOfNatText(n: nat)
    ensures UnsignedFloat(NatText(n)) == Some(n as real)
  {
    var body := NatText(n);
    ParseFloatOfDigits(body);
    assert body[..|body|] == body;
    assert Scaled(n as real, 0) == n as real;
  }

  /** float() reads an int's decimal text as that number. */
  lemma ParseFloatOfIntText(n: int)
    ensures ParseFloat(IntText(n)) == Some(n as real)
  {
    var s := IntText(n);
    if n < 0 {
      assert s == "-" + NatText(-n);
      assert s[0] == '-' && s[1..] == NatText(-n);
      ParseFloatOfNatText(-n);
      assert UnsignedFloat(s[1..]) == Some((-n) as real);
    } else {
      assert s == NatText(n);
      assert IsDigit(s[0]);
      ParseFloatOfNatText(n);
    }
  }

  /** Digits of a fraction 0 <= f < 1, at most `places` of them, stopping
      when the rest is zero. */
  function FractionDigits(f: real, places: nat): (r: string)
    requires 0.0 <= f < 1.0
    ensures |r| <= places
    ensures forall i :: 0 <= i < |r| ==> IsDigit(r[i])
    decreases places
  {
    if places == 0 || f == 0.0 then ""
    else
      var d := (f * 10.0).Floor;
      [DigitChar(d)] + FractionDigits(f * 10.0 - d as real, places - 1)
  }

  /** str(x) for a float of moderate size: the whole part, a point and the
      fraction digits, at least one ("20.0", "22.5"). */
  function FloatText(x: real): (r: string)
    ensures '.' in r
    ensures forall i :: 0 <= i < |r| ==> IsDigit(r[i]) || r[i] == '.' || r[i] == '-'
  {
    var a := if x < 0.0 then -x else x;
    var digits := FractionDigits(a - a.Floor as real, 17);
    var r := (if x < 0.0 then "-" else "") + NatText(a.Floor) + "." + (if digits == "" then "0" else digits);
    assert r[|r| - 1 - |if digits == "" then "0" else digits|] == '.';
    r
  }
}
