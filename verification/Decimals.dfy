/** Base-10 rendering and parsing of integers, as strconv does it for 64-bit values. */
module Decimals {
  import opened Common

  const TWO_64 := 0x1_0000_0000_0000_0000
  const TWO_63 := 0x8000_0000_0000_0000

  predicate IsDigit(c: char) {
    '0' <= c <= '9'
  }

  predicate AllDigits(s: string) {
    forall i :: 0 <= i < |s| ==> IsDigit(s[i])
  }

  function Digit(d: nat): char
    requires d < 10
  {
    ('0' as int + d) as char
  }

  function Format(n: nat): string {
    if n < 10 then [Digit(n)] else Format(n / 10) + [Digit(n % 10)]
  }

  function Value(s: string): nat
    requires AllDigits(s)
  {
    if s == "" then 0
    else 10 * Value(s[..|s| - 1]) + (s[|s| - 1] as int - '0' as int)
  }

  /** strconv.ParseUint(s, 10, 64) */
  function ParseUint(s: string): Option<nat> {
    if s == "" || !AllDigits(s) || Value(s) >= TWO_64 then None else Some(Value(s))
  }

  /** strconv.FormatInt(i, 10) */
  function FormatInt(i: int): string {
    if i < 0 then "-" + Format(-i) else Format(i)
  }

  /** strconv.ParseInt(s, 10, 64): an optional sign, digits, and the value must fit. */
  function ParseInt(s: string): Option<int> {
    var signed := s != "" && s[0] in {'+', '-'};
    var digits := if signed then s[1..] else s;
    if digits == "" || !AllDigits(digits) then None
    else
      var n: int := Value(digits);
      var v := if signed && s[0] == '-' then -n else n;
      if -TWO_63 <= v < TWO_63 then Some(v) else None
  }

  /** Rendering a number and reading it back gives the number. */
  lemma {:induction false} FormatRoundTrip(n: nat)
    ensures Format(n) != "" && AllDigits(Format(n)) && Value(Format(n)) == n
  {
    if n >= 10 {
      FormatRoundTrip(n / 10);
      var s := Format(n);
      assert s[..|s| - 1] == Format(n / 10);
    }
  }

  lemma ParseUintFormat(n: nat)
    requires n < TWO_64
    ensures ParseUint(Format(n)) == Some(n)
  {
    FormatRoundTrip(n);
  }

  lemma ParseIntFormat(i: int)
    requires -TWO_63 <= i < TWO_63
    ensures ParseInt(FormatInt(i)) == Some(i)
  {
    FormatRoundTrip(if i < 0 then -i else i);
    if i < 0 {
      assert FormatInt(i)[1..] == Format(-i);
    } else {
      assert IsDigit(Format(i)[0]);
    }
  }

  // ---------------------------------------------------------------- what is a number at all

  function Zeros(k: nat): string {
    if k == 0 then "" else "0" + Zeros(k - 1)
  }

  /** A rendering has no leading zero, but for zero itself. */
  lemma {:induction false} FormatIsShortest(n: nat)
    ensures Format(n)[..1] == "0" <==> n == 0
    ensures n == 0 ==> Format(n) == "0"
  {
    FormatRoundTrip(n);
    if n >= 10 {
      FormatIsShortest(n / 10);
      FormatRoundTrip(n / 10);
      assert Format(n)[..1] == Format(n / 10)[..1];
    }
  }

  lemma {:induction false} ZerosBefore(k: nat, s: string)
    requires AllDigits(s)
    ensures AllDigits(Zeros(k) + s) && Value(Zeros(k) + s) == Value(s) && |Zeros(k)| == k
    decreases k, |s|
  {
    if s == "" {
      if k > 0 {
        ZerosBefore(k - 1, "0");
        assert Zeros(k) + "" == Zeros(k - 1) + "0" by { ZerosSnoc(k - 1); }
      }
      assert Zeros(k) + "" == Zeros(k);
    } else {
      var n := |s| - 1;
      ZerosBefore(k, s[..n]);
      assert (Zeros(k) + s)[..|Zeros(k) + s| - 1] == Zeros(k) + s[..n];
    }
  }

  lemma {:induction false} ZerosSnoc(k: nat)
    ensures Zeros(k + 1) == Zeros(k) + "0"
  {
    if k > 0 {
      ZerosSnoc(k - 1);
      assert "0" + (Zeros(k - 1) + "0") == ("0" + Zeros(k - 1)) + "0";
    }
  }

  /** Any digits are leading zeros and the shortest rendering of their value. */
  lemma {:induction false} DigitsAreFormat(t: string) returns (k: nat)
    requires t != "" && AllDigits(t)
    ensures t == Zeros(k) + Format(Value(t))
  {
    var front, d := t[..|t| - 1], t[|t| - 1] as int - '0' as int;
    assert t == front + [Digit(d)];
    if front == "" {
      k := 0;
      assert Zeros(0) + Format(d) == [Digit(d)];
    } else {
      k := DigitsAreFormat(front);
      if Value(front) == 0 {
        ZerosSnoc(k);
        k := k + 1;
      } else {
        Assoc(Zeros(k), Format(Value(front)), [Digit(d)]);
      }
    }
  }

  /** t is a rendering of n, perhaps behind leading zeros. */
  ghost predicate Renders(t: string, n: nat) {
    exists k :: t == Zeros(k) + Format(n)
  }

  lemma RendersExactly(t: string, n: nat)
    ensures Renders(t, n) <==> t != "" && AllDigits(t) && Value(t) == n
  {
    if Renders(t, n) {
      var k :| t == Zeros(k) + Format(n);
      FormatRoundTrip(n);
      ZerosBefore(k, Format(n));
    } else if t != "" && AllDigits(t) && Value(t) == n {
      var k := DigitsAreFormat(t);
    }
  }

  /** A text is read as n exactly if it renders n, perhaps behind leading zeros, and n fits. */
  lemma ParseUintExactly(t: string, n: nat)
    ensures ParseUint(t) == Some(n) <==> n < TWO_64 && Renders(t, n)
  {
    RendersExactly(t, n);
  }

  /** A signed text likewise: a minus makes it negative, a plus is allowed, and the value must fit. */
  lemma ParseIntExactly(t: string, i: int)
    ensures ParseInt(t) == Some(i) <==>
      && -TWO_63 <= i < TWO_63
      && (|| (i >= 0 && Renders(t, i))
          || (i >= 0 && t != "" && t[0] == '+' && Renders(t[1..], i))
          || (i <= 0 && t != "" && t[0] == '-' && Renders(t[1..], -i)))
  {
    if i >= 0 {
      RendersExactly(t, i);
      if t != "" { RendersExactly(t[1..], i); }
    }
    if i <= 0 && t != "" { RendersExactly(t[1..], -i); }
  }

  /** A rendered integer starts with a minus exactly if it is negative, and with a zero only if it is zero. */
  lemma FormatIntIsShortest(i: int)
    ensures i < 0 ==> FormatInt(i) == "-" + FormatInt(-i)
    ensures i >= 0 ==> FormatInt(i) != "" && IsDigit(FormatInt(i)[0])
    ensures i > 0 ==> FormatInt(i)[0] != '0'
    ensures i == 0 ==> FormatInt(i) == "0"
  {
    if i >= 0 { FormatRoundTrip(i); FormatIsShortest(i); }
  }
}
