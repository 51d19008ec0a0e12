/** UTF-8 as section 3 of RFC 3629 defines it.  A char stands for one byte. */
module Utf8 {
  import opened Common

  predicate In(c: char, lo: int, hi: int) {
    lo <= c as int <= hi
  }

  predicate Continuation(c: char) {
    In(c, 0x80, 0xBF)
  }

  /** utf8.RuneStart */
  predicate RuneStart(c: char) {
    !Continuation(c)
  }

  /** The length of the well-formed character a byte string starts with; 0 when there is none. */
  function RuneLength(s: string): (n: nat)
    requires s != ""
    ensures n <= 4 && n <= |s|
    ensures n > 0 ==> RuneStart(s[0])
    ensures forall i :: 0 < i < n ==> Continuation(s[i])
  {
    var b := s[0];
    if In(b, 0, 0x7F) then 1
    else if In(b, 0xC2, 0xDF) then if |s| >= 2 && Continuation(s[1]) then 2 else 0
    else if In(b, 0xE0, 0xEF) then
      if |s| >= 3 && Continuation(s[1]) && Continuation(s[2])
         && (b as int == 0xE0 ==> In(s[1], 0xA0, 0xBF)) && (b as int == 0xED ==> In(s[1], 0x80, 0x9F))
      then 3 else 0
    else if In(b, 0xF0, 0xF4) then
      if |s| >= 4 && Continuation(s[1]) && Continuation(s[2]) && Continuation(s[3])
         && (b as int == 0xF0 ==> In(s[1], 0x90, 0xBF)) && (b as int == 0xF4 ==> In(s[1], 0x80, 0x8F))
      then 4 else 0
    else 0
  }

  /** The code point the first n bytes encode (RFC 3629, section 3). */
  function CodePoint(s: string, n: nat): int
    requires n <= |s| && 1 <= n <= 4
  {
    var b := s[0] as int;
    match n
    case 1 => b
    case 2 => (b - 0xC0) * 64 + (s[1] as int - 0x80)
    case 3 => ((b - 0xE0) * 64 + (s[1] as int - 0x80)) * 64 + (s[2] as int - 0x80)
    case _ => (((b - 0xF0) * 64 + (s[1] as int - 0x80)) * 64 + (s[2] as int - 0x80)) * 64 + (s[3] as int - 0x80)
  }

  /** The code points that take n bytes: no surrogates, nothing beyond 10FFFF, nothing that fits in fewer. */
  predicate TakesBytes(p: int, n: nat) {
    match n
    case 1 => 0 <= p < 0x80
    case 2 => 0x80 <= p < 0x800
    case 3 => 0x800 <= p < 0xD800 || 0xE000 <= p < 0x10000
    case 4 => 0x10000 <= p <= 0x10FFFF
    case _ => false
  }

  /** Bytes that look like a character of n bytes: its first byte says so, and the others continue it. */
  predicate Shaped(s: string, n: nat) {
    && 1 <= n <= 4 && n <= |s|
    && (match n
        case 1 => In(s[0], 0, 0x7F)
        case 2 => In(s[0], 0xC0, 0xDF)
        case 3 => In(s[0], 0xE0, 0xEF)
        case _ => In(s[0], 0xF0, 0xF7))
    && forall i :: 0 < i < n ==> In(s[i], 0x80, 0xBF)
  }

  /**
   A text starts with a character of n bytes exactly if it is shaped like one and encodes a code
   point that takes that many.
   */
  lemma RuneLengthExactly(s: string, n: nat)
    requires s != "" && n > 0
    ensures RuneLength(s) == n <==> Shaped(s, n) && TakesBytes(CodePoint(s, n), n)
  {
  }

  predicate ValidUtf8(s: string) {
    s == "" || (RuneLength(s) > 0 && ValidUtf8(s[RuneLength(s)..]))
  }

  lemma RuneLengthLocal(s: string, p: nat)
    requires 0 < p <= |s| && RuneLength(s) > 0
    ensures p >= RuneLength(s) ==> RuneLength(s[..p]) == RuneLength(s)
    ensures RuneLength(s[..p]) > 0 ==> RuneLength(s[..p]) == RuneLength(s)
  {
  }

  /** In well-formed text the prefixes that are well-formed are those that stop before a start byte. */
  lemma {:induction false} PrefixValidExactly(s: string, p: nat)
    requires ValidUtf8(s) && p <= |s|
    ensures ValidUtf8(s[..p]) <==> p == |s| || RuneStart(s[p])
  {
    if p == 0 {
      assert s[..0] == "";
    } else {
      var n := RuneLength(s);
      var t := s[..p];
      RuneLengthLocal(s, p);
      if p >= n {
        PrefixValidExactly(s[n..], p - n);
        assert t[n..] == s[n..][..p - n];
      }
    }
  }

  /** What follows a rune does not change it. */
  lemma RuneLengthStays(s: string, rest: string)
    requires s != "" && RuneLength(s) > 0
    ensures RuneLength(s + rest) == RuneLength(s)
  {
    assert forall i :: 0 <= i < |s| ==> (s + rest)[i] == s[i];
  }

  lemma {:induction false} ValidConcat(a: string, b: string)
    requires ValidUtf8(a) && ValidUtf8(b)
    ensures ValidUtf8(a + b)
    decreases |a|
  {
    if a == "" {
      assert a + b == b;
    } else {
      var n := RuneLength(a);
      RuneLengthStays(a, b);
      ValidConcat(a[n..], b);
      DropConcat(a, b, n);
    }
  }

  // ---------------------------------------------------------------- what encoders make of other bytes

  const REPLACEMENT := "\U{EF}\U{BF}\U{BD}"

  /** Every byte that starts no well-formed character becomes U+FFFD. */
  function Sanitize(s: string): string
    decreases |s|
  {
    if s == "" then ""
    else if RuneLength(s) == 0 then REPLACEMENT + Sanitize(s[1..])
    else s[..RuneLength(s)] + Sanitize(s[RuneLength(s)..])
  }

  lemma {:induction false} SanitizeIsValid(s: string)
    ensures ValidUtf8(Sanitize(s))
    decreases |s|
  {
    if s != "" {
      if RuneLength(s) == 0 {
        SanitizeIsValid(s[1..]);
        assert RuneLength(REPLACEMENT) == 3 && REPLACEMENT[3..] == "";
        ValidConcat(REPLACEMENT, Sanitize(s[1..]));
      } else {
        var n := RuneLength(s);
        SanitizeIsValid(s[n..]);
        RuneLengthLocal(s, n);
        assert s[..n][n..] == "";
        ValidConcat(s[..n], Sanitize(s[n..]));
      }
    }
  }

  lemma {:induction false} ValidIsSanitized(s: string)
    requires ValidUtf8(s)
    ensures Sanitize(s) == s
    decreases |s|
  {
    if s != "" {
      ValidIsSanitized(s[RuneLength(s)..]);
      assert s[..RuneLength(s)] + s[RuneLength(s)..] == s;
    }
  }

  /** Sanitizing changes a text exactly if it is not valid. */
  lemma SanitizedExactly(s: string)
    ensures Sanitize(s) == s <==> ValidUtf8(s)
  {
    SanitizeIsValid(s);
    if ValidUtf8(s) { ValidIsSanitized(s); }
  }

  lemma {:induction false} AsciiIsValid(s: string)
    requires forall i :: 0 <= i < |s| ==> In(s[i], 0, 0x7F)
    ensures ValidUtf8(s)
  {
    if s != "" { AsciiIsValid(s[1..]); }
  }
}
