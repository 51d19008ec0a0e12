/**
 How finite float64 values are rendered: by strconv.FormatFloat(f, 'f', -1, 64) and by
 encoding/json.  Both start from the shortest decimal digits that read back as the value; they
 differ in where they switch to an exponent.  Finding those digits is not part of this model.
 */
module Floats {
  import opened Decimals
  import opened Json

  /** `Finite` stands for 0.d1d2... times ten to the power of `point`. */
  datatype Form =
    | Zero(neg: bool)
    | Finite(neg: bool, digits: string, point: int)
    | NotFinite(text: string)

  const MAX_DIGITS := 17
  const MAX_POINT := 400

  predicate Shortest(f: Form) {
    f.Finite? ==>
      && 1 <= |f.digits| <= MAX_DIGITS && AllDigits(f.digits)
      && f.digits[0] != '0' && f.digits[|f.digits| - 1] != '0'
      && -MAX_POINT < f.point < MAX_POINT
  }

  type Float = f: Form | Shortest(f) witness Zero(false)

  function Zeros(n: nat): (z: string)
    ensures |z| == n && AllDigits(z) && forall i :: 0 <= i < n ==> z[i] == '0'
  {
    if n == 0 then "" else Zeros(n - 1) + "0"
  }

  function Sign(neg: bool): string {
    if neg then "-" else ""
  }

  /** Digits with the point in its place. */
  function Fixed(digits: string, point: int): string {
    if point <= 0 then "0." + (Zeros(-point) + digits)
    else if point < |digits| then digits[..point] + ("." + digits[point..])
    else digits + Zeros(point - |digits|)
  }

  /** One digit, the others as a fraction, and the exponent, without a padding zero. */
  function Scientific(digits: string, point: int): string
    requires digits != ""
  {
    digits[..1] + ((if |digits| == 1 then "" else "." + digits[1..]) + Exponent(point - 1))
  }

  function Exponent(e: int): string {
    if e < 0 then "e-" + Format(-e) else "e+" + Format(e)
  }

  /** strconv.FormatFloat(f, 'f', -1, 64) */
  function Plain(f: Float): string {
    match f
    case NotFinite(text) => text
    case Zero(neg) => Sign(neg) + "0"
    case Finite(neg, digits, point) => Sign(neg) + Fixed(digits, point)
  }

  /** Below 1e-6 or from 1e21 on, in magnitude. */
  predicate Extreme(f: Float) {
    f.Finite? && (f.point <= -6 || f.point >= 22)
  }

  /** encoding/json */
  function JsonText(f: Float): string
    requires !f.NotFinite?
  {
    if Extreme(f) then Sign(f.neg) + Scientific(f.digits, f.point) else Plain(f)
  }

  lemma FixedHasNoE(digits: string, point: int)
    requires AllDigits(digits)
    ensures 'e' !in Fixed(digits, point)
  {
    forall c | c in Fixed(digits, point) ensures IsDigit(c) || c == '.' {}
  }

  /** The two renderings agree exactly on zero and on magnitudes from 1e-6 up to, but not including, 1e21. */
  lemma RenderingsAgreeExactly(f: Float)
    requires !f.NotFinite?
    ensures Plain(f) == JsonText(f) <==> !Extreme(f)
  {
    if Extreme(f) {
      FixedHasNoE(f.digits, f.point);
      assert Plain(f) == Sign(f.neg) + Fixed(f.digits, f.point) && 'e' !in Plain(f);
      ScientificHasE(f.digits, f.point);
      var i :| 0 <= i < |Scientific(f.digits, f.point)| && Scientific(f.digits, f.point)[i] == 'e';
      assert JsonText(f)[|Sign(f.neg)| + i] == 'e';
    }
  }

  lemma ScientificHasE(digits: string, point: int)
    requires digits != ""
    ensures 'e' in Scientific(digits, point)
  {
    var fraction := if |digits| == 1 then "" else "." + digits[1..];
    assert Exponent(point - 1)[0] == 'e';
    assert (fraction + Exponent(point - 1))[|fraction|] == 'e';
    assert Scientific(digits, point)[1 + |fraction|] == 'e';
  }

  // ---------------------------------------------------------------- JSON numbers

  lemma {:induction false} DigitRunOf(d: string, rest: string)
    requires AllDigits(d) && (rest == "" || !IsDigit(rest[0]))
    ensures DigitRun(d + rest) == |d|
  {
    if d == "" {
      assert d + rest == rest;
    } else {
      assert (d + rest)[1..] == d[1..] + rest;
      DigitRunOf(d[1..], rest);
    }
  }

  predicate IsInteger(i: string) {
    i == "0" || (i != "" && AllDigits(i) && i[0] != '0')
  }

  /** A sign, an integer part and what may follow it make a number. */
  lemma NumberOf(neg: bool, i: string, tail: string)
    requires IsInteger(i) && IsTail(tail) && forall k :: 0 <= k < |tail| ==> NumberChar(tail[k])
    requires tail == "" || !IsDigit(tail[0])
    ensures IsNumber(Sign(neg) + (i + tail))
  {
    var u := i + tail;
    var t := Sign(neg) + u;
    if i == "0" {
      assert u[0] == '0' && IntegerRun(u) == 1;
    } else {
      DigitRunOf(i, tail);
      assert u[0] == i[0];
    }
    assert u[IntegerRun(u)..] == tail;
    assert t[0] == '-' <==> neg;
    assert (if neg then t[1..] else t) == u;
  }

  lemma DigitsAlone(d: string)
    requires AllDigits(d)
    ensures DigitRun(d) == |d|
  {
    DigitRunOf(d, "");
    assert d + "" == d;
  }

  lemma FractionTail(d: string, exponent: string)
    requires d != "" && AllDigits(d) && IsExponent(exponent) && (exponent == "" || exponent[0] == 'e')
    ensures IsTail("." + d + exponent)
  {
    var t := "." + d + exponent;
    assert t[1..] == d + exponent;
    DigitRunOf(d, exponent);
    assert t[1 + |d|..] == exponent;
  }

  lemma FractionChars(d: string, exponent: string)
    requires AllDigits(d) && forall k :: 0 <= k < |exponent| ==> NumberChar(exponent[k])
    ensures var t := "." + d + exponent; forall k :: 0 <= k < |t| ==> NumberChar(t[k])
  {
    var t := "." + d + exponent;
    forall k | 0 <= k < |t| ensures NumberChar(t[k]) {
      if 1 <= k <= |d| { assert t[k] == d[k - 1]; } else if k > |d| { assert t[k] == exponent[k - 1 - |d|]; }
    }
  }

  lemma ExponentIsOne(e: int)
    ensures IsExponent(Exponent(e)) && Exponent(e)[0] == 'e'
    ensures forall k :: 0 <= k < |Exponent(e)| ==> NumberChar(Exponent(e)[k])
  {
    var d := Format(if e < 0 then -e else e);
    FormatRoundTrip(if e < 0 then -e else e);
    DigitsAlone(d);
    assert Exponent(e)[2..] == d;
  }

  lemma FixedIsNumber(neg: bool, digits: string, point: int)
    requires digits != "" && AllDigits(digits) && digits[0] != '0'
    ensures IsNumber(Sign(neg) + Fixed(digits, point))
  {
    if point <= 0 {
      var d := Zeros(-point) + digits;
      FractionTail(d, "");
      assert "." + d + "" == "." + d;
      NumberOf(neg, "0", "." + d);
      assert "0" + ("." + d) == "0." + d;
    } else if point < |digits| {
      FractionTail(digits[point..], "");
      assert "." + digits[point..] + "" == "." + digits[point..];
      NumberOf(neg, digits[..point], "." + digits[point..]);
    } else {
      var i := digits + Zeros(point - |digits|);
      NumberOf(neg, i, "");
      assert i + "" == i;
    }
  }

  lemma ScientificIsNumber(neg: bool, digits: string, point: int)
    requires digits != "" && AllDigits(digits) && digits[0] != '0'
    ensures IsNumber(Sign(neg) + Scientific(digits, point))
  {
    var exponent := Exponent(point - 1);
    ExponentIsOne(point - 1);
    if |digits| == 1 {
      assert "" + exponent == exponent;
      NumberOf(neg, digits[..1], exponent);
      assert Scientific(digits, point) == digits[..1] + exponent;
    } else {
      var tail := "." + digits[1..] + exponent;
      FractionTail(digits[1..], exponent);
      FractionChars(digits[1..], exponent);
      NumberOf(neg, digits[..1], tail);
      assert Scientific(digits, point) == digits[..1] + tail;
    }
  }

  /** Whatever encoding/json writes for a float is a JSON number. */
  lemma JsonTextIsNumber(f: Float)
    requires !f.NotFinite?
    ensures IsNumber(JsonText(f))
  {
    match f {
      case Zero(neg) =>
        NumberOf(neg, "0", "");
        assert "0" + "" == "0";
      case Finite(neg, digits, point) =>
        if Extreme(f) { ScientificIsNumber(neg, digits, point); } else { FixedIsNumber(neg, digits, point); }
    }
  }

  lemma {:induction false} FormatLeads(n: nat)
    ensures IsInteger(Format(n))
  {
    FormatRoundTrip(n);
    if n >= 10 {
      FormatLeads(n / 10);
      assert Format(n)[0] == Format(n / 10)[0];
    } else if n > 0 {
      assert Format(n)[0] == Digit(n);
    }
  }

  lemma IntegerIsNumber(i: int)
    ensures IsNumber(FormatInt(i))
  {
    var n := if i < 0 then -i else i;
    FormatLeads(n);
    NumberOf(i < 0, Format(n), "");
    assert Format(n) + "" == Format(n);
    assert "" + Format(n) == Format(n);
  }

  // ---------------------------------------------------------------- lengths

  lemma {:induction false} FormatLength(n: nat, k: nat)
    requires k > 0 && n < Pow10(k)
    ensures |Format(n)| <= k
  {
    if n >= 10 {
      assert k > 1;
      FormatLength(n / 10, k - 1);
    }
  }

  function Pow10(k: nat): nat {
    if k == 0 then 1 else 10 * Pow10(k - 1)
  }

  const MAX_TEXT := 25

  lemma JsonTextLength(f: Float)
    requires !f.NotFinite?
    ensures 0 < |JsonText(f)| <= MAX_TEXT
  {
    if Extreme(f) {
      var e := if f.point - 1 < 0 then 1 - f.point else f.point - 1;
      assert Pow10(3) == 1000;
      FormatLength(e, 3);
    }
  }
}
