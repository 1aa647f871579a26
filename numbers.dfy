/**
 * The JavaScript numbers the core reads from block fields, as finite decimals.
 *
 * `Number(text)` is modelled by a small decimal grammar (`ParseNum`), and
 * `String(number)` by `Render`; the rules' `Number(x) || fallback` idiom is
 * `OrDefault`.
 */
module Numbers {
  import opened Wrappers
  import opened Text

  /** The decimal `mant / 10^exp`. */
  datatype Dec = Dec(mant: int, exp: nat)

  function Pow10(k: nat): (p: nat)
    ensures p >= 1
  {
    if k == 0 then 1 else 10 * Pow10(k - 1)
  }

  /** The number a decimal stands for. */
  function Real(d: Dec): real {
    d.mant as real / Pow10(d.exp) as real
  }

  /** No trailing zero in the fraction: each number has exactly one normal decimal. */
  predicate Normal(d: Dec) {
    d.exp == 0 || d.mant % 10 != 0
  }

  /** A JavaScript number (finite, not NaN) as its normal decimal. */
  type Number = d: Dec | Normal(d) witness Dec(0, 0)

  /** `a < b`, by cross-multiplying the mantissas. */
  predicate Less(a: Dec, b: Dec) {
    a.mant * Pow10(b.exp) < b.mant * Pow10(a.exp)
  }

  lemma MulPositive(u: real, v: real, p: real)
    requires p > 0.0
    ensures u < v <==> u * p < v * p
  {
  }

  lemma IntMulReal(x: int, y: int)
    ensures (x * y) as real == x as real * y as real
  {
  }

  lemma DivMul(x: real, p: real, q: real)
    requires p > 0.0
    ensures (x / p) * (p * q) == x * q
  {
    calc {
      (x / p) * (p * q);
      ((x / p) * p) * q;
      x * q;
    }
  }

  /** Comparing two fractions with positive denominators by cross-multiplying. */
  lemma CrossOrder(m: int, n: int, p: nat, q: nat)
    requires p >= 1 && q >= 1
    ensures m * q < n * p <==> m as real / p as real < n as real / q as real
  {
    var pr, qr := p as real, q as real;
    var x, y := m as real, n as real;
    IntMulReal(m, q);
    IntMulReal(n, p);
    assert m * q < n * p <==> x * qr < y * pr;
    DivMul(x, pr, qr);
    DivMul(y, qr, pr);
    assert qr * pr == pr * qr;
    MulPositive(x / pr, y / qr, pr * qr);
  }

  /** `Less` is the order of the numbers the decimals stand for. */
  lemma LessReal(a: Dec, b: Dec)
    ensures Less(a, b) <==> Real(a) < Real(b)
  {
    CrossOrder(a.mant, b.mant, Pow10(a.exp), Pow10(b.exp));
  }

  function Int(n: int): (d: Dec)
    ensures Normal(d) && Real(d) == n as real
  {
    Dec(n, 0)
  }

  /** JavaScript truthiness of a number: every number but zero (NaN has no decimal). */
  predicate NonZero(d: Dec) {
    d.mant != 0
  }

  lemma {:induction false} ScaleDown(m: int, e: nat)
    requires e > 0 && m % 10 == 0
    ensures (m / 10) as real / Pow10(e - 1) as real == m as real / Pow10(e) as real
  {
    var q := m / 10;
    var p := Pow10(e - 1);
    assert m == 10 * q;
    assert Pow10(e) == 10 * p;
    calc {
      m as real / Pow10(e) as real;
      (10 * q) as real / (10 * p) as real;
      { assert (10 * q) as real == 10.0 * q as real; assert (10 * p) as real == 10.0 * p as real; }
      (10.0 * q as real) / (10.0 * p as real);
      q as real / p as real;
    }
  }

  /** The normal decimal for `m / 10^e`: trailing zeros of the fraction dropped. */
  function Normalize(m: int, e: nat): (d: Dec)
    ensures Normal(d)
    ensures d.exp <= e
    ensures (m == 0) == (d.mant == 0)
    decreases e
  {
    if e > 0 && m % 10 == 0 then Normalize(m / 10, e - 1) else Dec(m, e)
  }

  /** Normalising keeps the number. */
  lemma {:induction false} NormalizeValue(m: int, e: nat)
    ensures Real(Normalize(m, e)) == m as real / Pow10(e) as real
    decreases e
  {
    if e > 0 && m % 10 == 0 {
      NormalizeValue(m / 10, e - 1);
      ScaleDown(m, e);
    }
  }

  /**
   * `Number(s)` for the decimal literals the model reads: surrounding ASCII white
   * space is ignored, an empty or all-blank string is 0, then an optional sign and
   * digits with at most one point and at least one digit. Anything else is NaN (None).
   */
  function ParseNum(s: string): (r: Option<Dec>)
    ensures r.Some? ==> Normal(r.value)
    ensures Trim(s) == [] ==> r == Some(Dec(0, 0))
  {
    ParseTrimmed(Trim(s))
  }

  /** `ParseNum` once the surrounding white space is gone: an optional sign, then unsigned digits. */
  function ParseTrimmed(t: string): (r: Option<Dec>)
    ensures r.Some? ==> Normal(r.value)
    ensures t == [] ==> r == Some(Dec(0, 0))
  {
    if t == [] then Some(Dec(0, 0))
    else
      var neg := t[0] == '-';
      var body := if t[0] == '-' || t[0] == '+' then t[1..] else t;
      match ParseUnsigned(body)
      case None => None
      case Some((m, f)) => Some(Normalize(if neg then -(m as int) else m, f))
  }

  /** The text before the first point and the text after it (all of `body` and nothing when there is no point). */
  function DotSplit(body: string): (parts: (string, string))
    ensures IndexOf(body, ".") < 0 ==> parts == (body, [])
  {
    var dot := IndexOf(body, ".");
    if dot < 0 then (body, []) else (body[..dot], body[dot + 1..])
  }

  /**
   * Digits with at most one point and at least one digit: the value of all the
   * digits read as one whole number, and how many of them follow the point.
   */
  function ParseUnsigned(body: string): Option<(nat, nat)> {
    var (intPart, fracPart) := DotSplit(body);
    ParseParts(intPart, fracPart)
  }

  function ParseParts(intPart: string, fracPart: string): (r: Option<(nat, nat)>)
    ensures r.Some? ==> r.value.1 == |fracPart|
  {
    if AllDigits(intPart) && AllDigits(fracPart) && |intPart| + |fracPart| > 0 then
      Some((DigitsValue(intPart + fracPart), |fracPart|))
    else None
  }

  function Zeros(n: nat): (z: string)
    ensures |z| == n && AllDigits(z)
    ensures forall i :: 0 <= i < n ==> z[i] == '0'
  {
    if n == 0 then [] else "0" + Zeros(n - 1)
  }

  function Abs(n: int): nat {
    if n < 0 then -n else n
  }

  /** A minus sign for a negative number, nothing otherwise. */
  function SignText(neg: bool): (s: string)
    ensures |s| <= 1 && (s != [] <==> neg)
  {
    if neg then "-" else ""
  }

  /** `String(x)` for a number in fixed notation (no exponent form). */
  function Render(d: Dec): (s: string)
    ensures s != []
  {
    var digits := NatToString(Abs(d.mant));
    var sign := SignText(d.mant < 0);
    if d.exp == 0 then sign + digits
    else if |digits| > d.exp then
      sign + digits[..|digits| - d.exp] + "." + digits[|digits| - d.exp..]
    else sign + "0." + Zeros(d.exp - |digits|) + digits
  }

  /** `Number(x) || fallback`: the number when it exists and is not zero, else the fallback. */
  function OrDefault(n: Option<Dec>, fallback: Dec): (r: Dec)
    ensures NonZero(fallback) ==> NonZero(r)
    ensures n.Some? && NonZero(n.value) ==> r == n.value
    ensures (n.None? || !NonZero(n.value)) ==> r == fallback
  {
    if n.Some? && NonZero(n.value) then n.value else fallback
  }

  // ---------------------------------------------------------------------------
  // Reading a rendered number back

  lemma DigitsValueLast(s: string)
    requires AllDigits(s) && s != []
    ensures DigitsValue(s) == 10 * DigitsValue(s[..|s| - 1]) + DigitValue(s[|s| - 1])
  {
  }

  lemma AppendArith(x: int, p: int, v: int, d: int)
    ensures 10 * (x * p + v) + d == x * (10 * p) + (10 * v + d)
  {
  }

  lemma {:induction false} DigitsValueAppend(a: string, b: string)
    requires AllDigits(a) && AllDigits(b)
    ensures AllDigits(a + b)
    ensures DigitsValue(a + b) == DigitsValue(a) * Pow10(|b|) + DigitsValue(b)
    decreases |b|
  {
    assert AllDigits(a + b);
    if b == [] {
      assert a + b == a;
    } else {
      var b' := b[..|b| - 1];
      var last := b[|b| - 1];
      assert (a + b)[..|a + b| - 1] == a + b';
      assert (a + b)[|a + b| - 1] == last;
      DigitsValueAppend(a, b');
      DigitsValueLast(a + b);
      DigitsValueLast(b);
      AppendArith(DigitsValue(a), Pow10(|b'|), DigitsValue(b'), DigitValue(last));
    }
  }

  lemma ZerosValue(n: nat)
    ensures DigitsValue(Zeros(n)) == 0
  {
    if n > 0 {
      assert Zeros(n) == Zeros(n - 1) + "0";
      ZerosOrder(n);
    }
  }

  /** Zeros in front of a digit string do not change its value. */
  lemma LeadingZeros(n: nat, digits: string, fp: string)
    requires AllDigits(digits) && fp == Zeros(n) + digits
    ensures AllDigits(fp) && AllDigits("0" + fp) && |fp| == n + |digits|
    ensures DigitsValue("0" + fp) == DigitsValue(digits)
  {
    var z := Zeros(n);
    ZerosValue(n);
    DigitsValueAppend(z, digits);
    assert DigitsValue(fp) == DigitsValue(digits) by {
      assert DigitsValue(z) * Pow10(|digits|) == 0 * Pow10(|digits|) == 0;
    }
    assert DigitsValue("0") == 0 by {
      assert "0"[..0] == [];
    }
    DigitsValueAppend("0", fp);
    assert DigitsValue("0") * Pow10(|fp|) == 0;
  }

  lemma {:induction false} ZerosOrder(n: nat)
    ensures Zeros(n) + "0" == "0" + Zeros(n)
  {
    if n > 0 {
      ZerosOrder(n - 1);
    }
  }

  lemma TrimNoSpace(s: string)
    requires forall i :: 0 <= i < |s| ==> !IsSpace(s[i])
    ensures Trim(s) == s
  {
  }

  lemma IndexOfDot(a: string, b: string)
    requires AllDigits(a)
    ensures IndexOf(a + "." + b, ".") == |a|
  {
    var s := a + "." + b;
    assert MatchAt(s, ".", |a|);
    forall k | 0 <= k < |a| ensures !MatchAt(s, ".", k) {
      assert s[k] == a[k];
    }
  }

  lemma IndexOfNoDot(a: string)
    requires AllDigits(a)
    ensures IndexOf(a, ".") == -1
  {
    forall k | 0 <= k ensures !MatchAt(a, ".", k) {
      if k < |a| { assert a[k..k + 1] == [a[k]]; }
    }
  }

  lemma ParseUnsignedWhole(ip: string)
    requires AllDigits(ip) && ip != []
    ensures ParseUnsigned(ip) == Some((DigitsValue(ip), 0))
  {
    IndexOfNoDot(ip);
    assert ip + [] == ip;
  }

  lemma ParseUnsignedFraction(ip: string, fp: string)
    requires AllDigits(ip) && AllDigits(fp) && ip != []
    ensures AllDigits(ip + fp)
    ensures ParseUnsigned(ip + "." + fp) == Some((DigitsValue(ip + fp), |fp|))
  {
    var body := ip + "." + fp;
    IndexOfDot(ip, fp);
    assert body[..|ip|] == ip;
    assert body[|ip| + 1..] == fp;
    assert DotSplit(body) == (ip, fp);
    assert AllDigits(ip + fp);
  }

  lemma NormalizeNormal(m: int, e: nat)
    requires Normal(Dec(m, e))
    ensures Normalize(m, e) == Dec(m, e)
  {
  }

  lemma NoSpaceInNumber(ip: string, fp: string)
    requires AllDigits(ip) && AllDigits(fp)
    ensures forall i :: 0 <= i < |ip + "." + fp| ==> !IsSpace((ip + "." + fp)[i])
  {
    var body := ip + "." + fp;
    forall i | 0 <= i < |body| ensures !IsSpace(body[i]) {
      if i < |ip| { assert body[i] == ip[i]; }
      else if i > |ip| { assert body[i] == fp[i - |ip| - 1]; }
    }
  }

  /** What `ParseNum` makes of an optional minus sign followed by unsigned decimal digits. */
  lemma ParseSigned(neg: bool, body: string, m: nat, f: nat)
    requires body != [] && IsDigit(body[0])
    requires forall i :: 0 <= i < |body| ==> !IsSpace(body[i])
    requires ParseUnsigned(body) == Some((m, f))
    ensures ParseNum(SignText(neg) + body) == Some(Normalize(if neg then -(m as int) else m, f))
  {
    SignedNoSpace(neg, body);
    ParseTrimmedSigned(neg, body, m, f);
  }

  lemma SignedNoSpace(neg: bool, body: string)
    requires forall i :: 0 <= i < |body| ==> !IsSpace(body[i])
    ensures Trim(SignText(neg) + body) == SignText(neg) + body
  {
    var t := SignText(neg) + body;
    forall i | 0 <= i < |t| ensures !IsSpace(t[i]) {
      if i >= |SignText(neg)| { assert t[i] == body[i - |SignText(neg)|]; }
    }
    TrimNoSpace(t);
  }

  lemma ParseTrimmedSigned(neg: bool, body: string, m: nat, f: nat)
    requires body != [] && IsDigit(body[0])
    requires ParseUnsigned(body) == Some((m, f))
    ensures ParseTrimmed(SignText(neg) + body) == Some(Normalize(if neg then -(m as int) else m, f))
  {
    var t := SignText(neg) + body;
    if neg {
      assert t[0] == '-' && t[1..] == body;
    } else {
      assert t == body;
    }
  }

  /** The sign of a decimal's magnitude, followed by the digits of its magnitude, parses back to it. */
  lemma ParseSignedDecimal(d: Dec, body: string)
    requires Normal(d)
    requires body != [] && IsDigit(body[0])
    requires forall i :: 0 <= i < |body| ==> !IsSpace(body[i])
    requires ParseUnsigned(body) == Some((Abs(d.mant), d.exp))
    ensures ParseNum(SignText(d.mant < 0) + body) == Some(d)
  {
    ParseSigned(d.mant < 0, body, Abs(d.mant), d.exp);
    assert (if d.mant < 0 then -(Abs(d.mant) as int) else Abs(d.mant)) == d.mant;
    NormalizeNormal(d.mant, d.exp);
  }

  lemma RenderWhole(d: Dec)
    requires d.exp == 0
    ensures ParseNum(Render(d)) == Some(d)
  {
    var digits := NatToString(Abs(d.mant));
    NatToStringValue(Abs(d.mant));
    var sign := SignText(d.mant < 0);
    assert Render(d) == sign + digits;
    ParseUnsignedWhole(digits);
    ParseSignedDecimal(d, digits);
  }

  lemma RenderPointInside(d: Dec)
    requires Normal(d) && d.exp > 0 && |NatToString(Abs(d.mant))| > d.exp
    ensures ParseNum(Render(d)) == Some(d)
  {
    var digits := NatToString(Abs(d.mant));
    var body := digits[..|digits| - d.exp] + "." + digits[|digits| - d.exp..];
    assert Render(d) == SignText(d.mant < 0) + body;
    NatToStringValue(Abs(d.mant));
    ParsePointInsideDecimal(d, digits);
  }

  lemma ParsePointInsideDecimal(d: Dec, digits: string)
    requires Normal(d) && AllDigits(digits) && DigitsValue(digits) == Abs(d.mant) && |digits| > d.exp
    ensures ParseNum(SignText(d.mant < 0) + (digits[..|digits| - d.exp] + "." + digits[|digits| - d.exp..])) == Some(d)
  {
    ParsePointInside(digits, d.exp);
    ParseSignedDecimal(d, digits[..|digits| - d.exp] + "." + digits[|digits| - d.exp..]);
  }

  /** Digits with a point put in before their last `e` read as their value scaled down by `e` places. */
  lemma ParsePointInside(digits: string, e: nat)
    requires AllDigits(digits) && |digits| > e
    ensures var body := digits[..|digits| - e] + "." + digits[|digits| - e..];
      && ParseUnsigned(body) == Some((DigitsValue(digits), e))
      && IsDigit(body[0]) && forall i :: 0 <= i < |body| ==> !IsSpace(body[i])
  {
    var ip, fp := digits[..|digits| - e], digits[|digits| - e..];
    assert ip + fp == digits;
    ParseUnsignedFraction(ip, fp);
    NoSpaceInNumber(ip, fp);
    assert (ip + "." + fp)[0] == ip[0];
  }

  /** `0.` followed by digits reads as those digits behind a leading zero. */
  lemma ParseZeroPoint(fp: string, value: nat, len: nat)
    requires AllDigits(fp) && AllDigits("0" + fp) && DigitsValue("0" + fp) == value && |fp| == len
    ensures ParseUnsigned("0" + "." + fp) == Some((value, len))
  {
    assert AllDigits("0");
    ParseUnsignedFraction("0", fp);
    assert (DigitsValue("0" + fp), |fp|) == (value, len);
  }

  lemma RenderPointBefore(d: Dec)
    requires Normal(d) && d.exp > 0 && |NatToString(Abs(d.mant))| <= d.exp
    ensures ParseNum(Render(d)) == Some(d)
  {
    var digits := NatToString(Abs(d.mant));
    var fp := Zeros(d.exp - |digits|) + digits;
    assert Render(d) == SignText(d.mant < 0) + ("0" + "." + fp);
    assert DigitsValue("0" + fp) == Abs(d.mant) by {
      NatToStringValue(Abs(d.mant));
      LeadingZeros(d.exp - |digits|, digits, fp);
    }
    ParsePointBeforeDecimal(d, fp);
  }

  lemma ParsePointBeforeDecimal(d: Dec, fp: string)
    requires Normal(d) && AllDigits(fp) && AllDigits("0" + fp) && DigitsValue("0" + fp) == Abs(d.mant) && |fp| == d.exp
    ensures ParseNum(SignText(d.mant < 0) + ("0" + "." + fp)) == Some(d)
  {
    var body := "0" + "." + fp;
    ParseZeroPoint(fp, Abs(d.mant), d.exp);
    assert IsDigit(body[0]) && forall i :: 0 <= i < |body| ==> !IsSpace(body[i]) by {
      NoSpaceInNumber("0", fp);
      assert body[0] == '0';
    }
    ParseSignedDecimal(d, body);
  }


  /** Parsing a rendered normal decimal gives it back: `Number(String(x)) === x`. */
  lemma RenderRoundTrip(d: Dec)
    requires Normal(d)
    ensures ParseNum(Render(d)) == Some(d)
  {
    if d.exp == 0 {
      RenderWhole(d);
    } else if |NatToString(Abs(d.mant))| > d.exp {
      RenderPointInside(d);
    } else {
      RenderPointBefore(d);
    }
  }
}
