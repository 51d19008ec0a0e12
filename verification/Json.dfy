/**
 Compact JSON (RFC 8259): what encoding/json writes for the values the program marshals, and a
 reader written from the format and not from the writer.  A char stands for one byte.
 */
module Json {
  import opened Common
  import opened Decimals
  import opened Utf8

  // ---------------------------------------------------------------- writing strings (section 7)

  /** encoding/json's escape of one ASCII byte. */
  function EscapeAscii(c: char): (e: string)
    requires In(c, 0, 0x7F)
    ensures 1 <= |e| <= 6
  {
    if c == '"' || c == '\\' then ['\\', c]
    else if c == '\n' then "\\n"
    else if c == '\r' then "\\r"
    else if c == '\t' then "\\t"
    else if c as int == 8 then "\\b"
    else if c as int == 12 then "\\f"
    else if c as int < 0x20 || c == '<' || c == '>' || c == '&' then "\\u00" + Hex(c as int / 16) + Hex(c as int % 16)
    else [c]
  }

  function Hex(d: int): (h: string)
    requires 0 <= d < 16
    ensures |h| == 1
  {
    if d < 10 then [('0' as int + d) as char] else [('a' as int + d - 10) as char]
  }

  predicate LineSeparator(s: string) {
    |s| >= 3 && s[0] as int == 0xE2 && s[1] as int == 0x80 && (s[2] as int == 0xA8 || s[2] as int == 0xA9)
  }

  /** The short escapes; every other control character, and what could end a script element, is written by its code. */
  lemma EscapeTable(c: char)
    requires In(c, 0, 0x7F)
    ensures c == '"' ==> EscapeAscii(c) == "\\\""
    ensures c == '\\' ==> EscapeAscii(c) == "\\\\"
    ensures c == '\n' ==> EscapeAscii(c) == "\\n"
    ensures c == '\r' ==> EscapeAscii(c) == "\\r"
    ensures c == '\t' ==> EscapeAscii(c) == "\\t"
    ensures c as int == 8 ==> EscapeAscii(c) == "\\b"
    ensures c as int == 12 ==> EscapeAscii(c) == "\\f"
    ensures c in {'<', '>', '&'} || (c as int < 0x20 && c as int !in {8, 9, 10, 12, 13}) ==>
      |EscapeAscii(c)| == 6 && "\\u00" <= EscapeAscii(c)
    ensures c as int >= 0x20 && c !in {'"', '\\', '<', '>', '&'} ==> EscapeAscii(c) == [c]
  {
  }

  /** U+2028 and U+2029, which break lines in a script. */
  lemma SeparatorTable(s: string)
    requires s != "" && RuneLength(s) > 0
    ensures LineSeparator(s) <==> RuneLength(s) == 3 && CodePoint(s, 3) in {0x2028, 0x2029}
  {
    if |s| >= 3 { RuneLengthExactly(s, 3); }
  }

  /** How many bytes the encoder takes at a time, and what it writes for them. */
  function EscapeStep(s: string): (r: (nat, string))
    requires s != ""
    ensures 0 < r.0 <= |s| && |r.1| <= 6 * r.0
  {
    if In(s[0], 0, 0x7F) then (1, EscapeAscii(s[0]))
    else if RuneLength(s) == 0 then (1, "\\ufffd")
    else if LineSeparator(s) then (RuneLength(s), "\\u202" + Hex(s[2] as int % 16))
    else (RuneLength(s), s[..RuneLength(s)])
  }

  function Escape(s: string): (e: string)
    ensures |e| <= 6 * |s|
    decreases |s|
  {
    if s == "" then "" else EscapeStep(s).1 + Escape(s[EscapeStep(s).0..])
  }

  // ---------------------------------------------------------------- reading strings

  function HexValue(c: char): Option<nat> {
    if '0' <= c <= '9' then Some(c as int - '0' as int)
    else if 'a' <= c <= 'f' then Some(c as int - 'a' as int + 10)
    else if 'A' <= c <= 'F' then Some(c as int - 'A' as int + 10)
    else None
  }

  function HexNumber(h: string): Option<nat> {
    if h == "" then Some(0)
    else
      var front, last := HexNumber(h[..|h| - 1]), HexValue(h[|h| - 1]);
      if front.None? || last.None? then None else Some(16 * front.value + last.value)
  }

  /** Code points below 10000 that are no surrogates. */
  predicate Scalar(n: nat) {
    n < 0xD800 || 0xE000 <= n < 0x10000
  }

  /** The UTF-8 bytes of a code point (RFC 3629, section 3). */
  function EncodeRune(n: nat): string
    requires Scalar(n)
  {
    if n < 0x80 then [n as char]
    else if n < 0x800 then [(0xC0 + n / 64) as char, (0x80 + n % 64) as char]
    else [(0xE0 + n / 4096) as char, (0x80 + n / 64 % 64) as char, (0x80 + n % 64) as char]
  }

  /** An escape sequence: the bytes it stands for and its length.  Surrogates are refused. */
  function ReadEscape(e: string): (r: Option<(string, nat)>)
    requires e != ""
    ensures r.Some? ==> 0 < r.value.1 <= |e|
  {
    if |e| < 2 then None
    else if e[1] in {'"', '\\', '/'} then Some(([e[1]], 2))
    else if e[1] == 'b' then Some(([8 as char], 2))
    else if e[1] == 'f' then Some(([12 as char], 2))
    else if e[1] == 'n' then Some((['\n'], 2))
    else if e[1] == 'r' then Some((['\r'], 2))
    else if e[1] == 't' then Some((['\t'], 2))
    else if e[1] == 'u' && |e| >= 6 && HexNumber(e[2..6]).Some? && Scalar(HexNumber(e[2..6]).value)
    then Some((EncodeRune(HexNumber(e[2..6]).value), 6))
    else None
  }

  /** A string up to its closing quote, and what follows it. */
  function ReadString(e: string): (r: Option<(string, string)>)
    ensures r.Some? ==> |r.value.1| < |e|
    decreases |e|
  {
    if e == "" || e[0] as int < 0x20 then None
    else if e[0] == '"' then Some(("", e[1..]))
    else if e[0] == '\\' then
      match ReadEscape(e)
      case None => None
      case Some((bytes, n)) => Prepend(bytes, ReadString(e[n..]))
    else Prepend([e[0]], ReadString(e[1..]))
  }

  function Prepend(p: string, r: Option<(string, string)>): Option<(string, string)> {
    if r.None? then None else Some((p + r.value.0, r.value.1))
  }

  predicate Plain(c: char) {
    c as int >= 0x20 && c != '"' && c != '\\'
  }

  lemma {:induction false} PlainReads(p: string, rest: string)
    requires forall i :: 0 <= i < |p| ==> Plain(p[i])
    ensures ReadString(p + rest) == Prepend(p, ReadString(rest))
  {
    if p == "" {
      assert p + rest == rest;
      if ReadString(rest).Some? { assert "" + ReadString(rest).value.0 == ReadString(rest).value.0; }
    } else {
      assert (p + rest)[1..] == p[1..] + rest;
      PlainReads(p[1..], rest);
      PrependTwice([p[0]], p[1..], ReadString(rest));
      assert [p[0]] + p[1..] == p;
    }
  }

  lemma PrependTwice(a: string, b: string, r: Option<(string, string)>)
    ensures Prepend(a, Prepend(b, r)) == Prepend(a + b, r)
  {
    if r.Some? { Assoc(a, b, r.value.0); }
  }

  lemma EscapeReads(e: string, rest: string, bytes: string)
    requires |e| >= 2 && e[0] == '\\' && ReadEscape(e + rest) == Some((bytes, |e|))
    ensures ReadString(e + rest) == Prepend(bytes, ReadString(rest))
  {
    assert (e + rest)[|e|..] == rest;
  }

  lemma HexReads(d: int)
    requires 0 <= d < 16
    ensures HexValue(Hex(d)[0]) == Some(d)
  {
  }

  lemma HexNumberOf4(a: char, b: char, c: char, d: char)
    requires HexValue(a).Some? && HexValue(b).Some? && HexValue(c).Some? && HexValue(d).Some?
    ensures HexNumber([a, b, c, d]) ==
      Some(16 * (16 * (16 * HexValue(a).value + HexValue(b).value) + HexValue(c).value) + HexValue(d).value)
  {
    assert [a, b, c, d][..3] == [a, b, c] && [a, b, c][..2] == [a, b] && [a, b][..1] == [a] && [a][..0] == "";
    assert HexNumber([a]) == Some(HexValue(a).value);
    assert HexNumber([a, b]) == Some(16 * HexValue(a).value + HexValue(b).value);
  }

  /** A \u escape reads as the bytes of its code point. */
  lemma UnicodeReads(e: string, rest: string, n: nat)
    requires |e| == 6 && e[0] == '\\' && e[1] == 'u' && HexNumber(e[2..]) == Some(n) && Scalar(n)
    ensures ReadString(e + rest) == Prepend(EncodeRune(n), ReadString(rest))
  {
    assert (e + rest)[2..6] == e[2..];
    EscapeReads(e, rest, EncodeRune(n));
  }

  lemma AsciiReads(c: char, rest: string)
    requires In(c, 0, 0x7F)
    ensures ReadString(EscapeAscii(c) + rest) == Prepend([c], ReadString(rest))
  {
    var e := EscapeAscii(c);
    if |e| == 1 {
      PlainReads(e, rest);
    } else if |e| == 2 {
      EscapeReads(e, rest, [c]);
    } else {
      HexReads(c as int / 16);
      HexReads(c as int % 16);
      HexNumberOf4('0', '0', Hex(c as int / 16)[0], Hex(c as int % 16)[0]);
      assert e[2..] == ['0', '0', Hex(c as int / 16)[0], Hex(c as int % 16)[0]];
      UnicodeReads(e, rest, c as int);
    }
  }

  lemma SeparatorReads(s: string, rest: string)
    requires LineSeparator(s)
    ensures ReadString("\\u202" + Hex(s[2] as int % 16) + rest) == Prepend(s[..3], ReadString(rest))
  {
    var d := s[2] as int % 16;
    var e := "\\u202" + Hex(d);
    HexReads(d);
    HexNumberOf4('2', '0', '2', Hex(d)[0]);
    assert e[2..] == ['2', '0', '2', Hex(d)[0]];
    UnicodeReads(e, rest, 0x2020 + d);
    assert EncodeRune(0x2020 + d) == s[..3];
  }

  lemma StepReads(s: string, rest: string)
    requires s != "" && RuneLength(s) > 0
    ensures ReadString(EscapeStep(s).1 + rest) == Prepend(s[..RuneLength(s)], ReadString(rest))
    ensures EscapeStep(s).0 == RuneLength(s)
  {
    var n := RuneLength(s);
    if In(s[0], 0, 0x7F) {
      AsciiReads(s[0], rest);
      assert s[..1] == [s[0]];
    } else if LineSeparator(s) {
      assert n == 3;
      SeparatorReads(s, rest);
    } else {
      PlainReads(s[..n], rest);
    }
  }

  lemma ReplacementReads(rest: string)
    ensures ReadString("\\ufffd" + rest) == Prepend(REPLACEMENT, ReadString(rest))
  {
    var e := "\\ufffd";
    HexNumberOf4('f', 'f', 'f', 'd');
    assert e[2..] == ['f', 'f', 'f', 'd'];
    UnicodeReads(e, rest, 0xFFFD);
    assert EncodeRune(0xFFFD) == REPLACEMENT;
  }

  /** Reading an escaped string gives the text, sanitized, and stops at its own closing quote. */
  lemma {:induction false} StringRoundTrip(s: string, rest: string)
    ensures ReadString(Escape(s) + ("\"" + rest)) == Some((Sanitize(s), rest))
    decreases |s|
  {
    var close := "\"" + rest;
    if s == "" {
      assert "" + close == close;
      assert close[1..] == rest;
    } else {
      var n := EscapeStep(s).0;
      if RuneLength(s) == 0 { ReplacementReads(Escape(s[n..]) + close); } else { StepReads(s, Escape(s[n..]) + close); }
      Assoc(EscapeStep(s).1, Escape(s[n..]), close);
      StringRoundTrip(s[n..], rest);
    }
  }

  // ---------------------------------------------------------------- numbers (section 6)

  function DigitRun(t: string): (n: nat)
    ensures n <= |t| && (forall i :: 0 <= i < n ==> IsDigit(t[i])) && (n < |t| ==> !IsDigit(t[n]))
  {
    if t == "" || !IsDigit(t[0]) then 0 else 1 + DigitRun(t[1..])
  }

  /** An integer part: a single zero, or digits that do not start with one. */
  function IntegerRun(t: string): (n: nat)
    ensures n <= |t|
  {
    if t != "" && t[0] == '0' then 1 else DigitRun(t)
  }

  /** Optional fraction, then optional exponent, then nothing. */
  predicate IsTail(t: string) {
    if t != "" && t[0] == '.' then DigitRun(t[1..]) > 0 && IsExponent(t[1 + DigitRun(t[1..])..]) else IsExponent(t)
  }

  predicate IsExponent(t: string) {
    t == "" || (
      t[0] in {'e', 'E'} &&
      var d := if |t| > 1 && t[1] in {'+', '-'} then t[2..] else t[1..];
      d != "" && DigitRun(d) == |d|)
  }

  predicate NumberChar(c: char) {
    IsDigit(c) || c in {'+', '-', '.', 'e', 'E'}
  }

  predicate IsNumber(t: string) {
    && (forall i :: 0 <= i < |t| ==> NumberChar(t[i]))
    && var u := if t != "" && t[0] == '-' then t[1..] else t;
       IntegerRun(u) > 0 && IsTail(u[IntegerRun(u)..])
  }

  function NumberRun(t: string): (n: nat)
    ensures n <= |t|
  {
    if t == "" || !NumberChar(t[0]) then 0 else 1 + NumberRun(t[1..])
  }

  // ---------------------------------------------------------------- values

  /** A number keeps its text, as a decoder with UseNumber does. */
  datatype Json =
    | JNumber(text: string)
    | JBool(b: bool)
    | JString(s: string)
    | JObject(fields: Fields)

  datatype Fields = NoFields | Field(name: string, value: Json, rest: Fields)

  function Print(j: Json): string
    decreases j
  {
    match j
    case JNumber(text) => text
    case JBool(b) => if b then "true" else "false"
    case JString(s) => Quoted(s)
    case JObject(fields) => "{" + PrintFields(fields)
  }

  function Quoted(s: string): string {
    "\"" + (Escape(s) + "\"")
  }

  /** The fields with their commas, and the closing brace. */
  function PrintFields(f: Fields): string
    decreases f
  {
    match f
    case NoFields => "}"
    case Field(name, value, rest) =>
      Quoted(name) + (":" + (Print(value) + if rest.NoFields? then "}" else "," + PrintFields(rest)))
  }

  function ReadValue(e: string): (r: Option<(Json, string)>)
    ensures r.Some? ==> |r.value.1| < |e|
    decreases |e|, 1
  {
    if e == "" then None
    else if e[0] == '"' then
      match ReadString(e[1..])
      case None => None
      case Some((s, rest)) => Some((JString(s), rest))
    else if e[0] == '{' then
      if |e| > 1 && e[1] == '}' then Some((JObject(NoFields), e[2..]))
      else match ReadFields(e[1..])
        case None => None
        case Some((f, rest)) => Some((JObject(f), rest))
    else if "true" <= e then Some((JBool(true), e[4..]))
    else if "false" <= e then Some((JBool(false), e[5..]))
    else
      var n := NumberRun(e);
      if IsNumber(e[..n]) then Some((JNumber(e[..n]), e[n..])) else None
  }

  function ReadFields(e: string): (r: Option<(Fields, string)>)
    ensures r.Some? ==> |r.value.1| < |e|
    decreases |e|, 0
  {
    if e == "" || e[0] != '"' then None
    else match ReadString(e[1..])
      case None => None
      case Some((name, t)) =>
        if t == "" || t[0] != ':' then None
        else match ReadValue(t[1..])
          case None => None
          case Some((value, u)) =>
            if u == "" then None
            else if u[0] == '}' then Some((Field(name, value, NoFields), u[1..]))
            else if u[0] != ',' then None
            else match ReadFields(u[1..])
              case None => None
              case Some((rest, v)) => Some((Field(name, value, rest), v))
  }

  /** A whole text: one value and nothing after it. */
  function Read(text: string): Option<Json> {
    match ReadValue(text)
    case None => None
    case Some((j, rest)) => if rest == "" then Some(j) else None
  }

  /** The value as a decoder sees it. */
  function Clean(j: Json): Json
    decreases j
  {
    match j
    case JString(s) => JString(Sanitize(s))
    case JObject(f) => JObject(CleanFields(f))
    case _ => j
  }

  function CleanFields(f: Fields): Fields
    decreases f
  {
    match f
    case NoFields => NoFields
    case Field(name, value, rest) => Field(name, Clean(value), CleanFields(rest))
  }

  predicate Ascii(s: string) {
    forall i :: 0 <= i < |s| ==> In(s[i], 0, 0x7F)
  }

  /** Numbers are numbers, and field names are plain. */
  predicate Writable(j: Json)
    decreases j
  {
    match j
    case JNumber(text) => IsNumber(text)
    case JObject(f) => FieldsWritable(f)
    case _ => true
  }

  predicate FieldsWritable(f: Fields)
    decreases f
  {
    f.Field? ==> Ascii(f.name) && Writable(f.value) && FieldsWritable(f.rest)
  }

  /** The last field of that name wins. */
  function Lookup(f: Fields, name: string): Option<Json> {
    if f.NoFields? then None
    else
      var later := Lookup(f.rest, name);
      if later.Some? then later else if f.name == name then Some(f.value) else None
  }

  /** What may follow a number without becoming part of it. */
  predicate EndsNumber(rest: string) {
    rest == "" || !NumberChar(rest[0])
  }

  lemma {:induction false} NumberRunOf(t: string, rest: string)
    requires (forall i :: 0 <= i < |t| ==> NumberChar(t[i])) && EndsNumber(rest)
    ensures NumberRun(t + rest) == |t|
  {
    if t == "" {
      assert t + rest == rest;
    } else {
      assert (t + rest)[1..] == t[1..] + rest;
      NumberRunOf(t[1..], rest);
    }
  }

  lemma NumberReads(t: string, rest: string)
    requires IsNumber(t) && EndsNumber(rest)
    ensures ReadValue(t + rest) == Some((JNumber(t), rest))
  {
    NumberRunOf(t, rest);
    assert t != "" && (t + rest)[0] == t[0] && NumberChar(t[0]);
    assert (t + rest)[..|t|] == t && (t + rest)[|t|..] == rest;
  }

  lemma QuotedReads(s: string, rest: string)
    ensures Quoted(s) + rest != "" && (Quoted(s) + rest)[0] == '"'
    ensures ReadString((Quoted(s) + rest)[1..]) == Some((Sanitize(s), rest))
  {
    StringRoundTrip(s, rest);
    Assoc("\"", Escape(s) + "\"", rest);
    Assoc(Escape(s), "\"", rest);
    assert (Quoted(s) + rest)[1..] == Escape(s) + ("\"" + rest);
  }

  lemma WordReads(b: bool, rest: string)
    ensures ReadValue((if b then "true" else "false") + rest) == Some((JBool(b), rest))
  {
    var word := if b then "true" else "false";
    assert (word + rest)[0] == word[0] && word <= word + rest;
    assert (word + rest)[|word|..] == rest;
    assert !b ==> !("true" <= word + rest);
  }

  /** Whatever is written is read back, sanitized, and nothing more is consumed. */
  lemma {:induction false} ValueRoundTrip(j: Json, rest: string)
    requires Writable(j) && EndsNumber(rest)
    ensures ReadValue(Print(j) + rest) == Some((Clean(j), rest))
    decreases j
  {
    match j {
      case JNumber(text) => NumberReads(text, rest);
      case JBool(b) => WordReads(b, rest);
      case JString(s) => QuotedReads(s, rest);
      case JObject(f) =>
        if f.Field? { FieldsRoundTrip(f, rest); }
        ObjectReads(f, rest);
    }
  }

  lemma ObjectReads(f: Fields, rest: string)
    requires f.Field? ==> ReadFields(PrintFields(f) + rest) == Some((CleanFields(f), rest))
    ensures ReadValue(Print(JObject(f)) + rest) == Some((JObject(CleanFields(f)), rest))
  {
    var e := Print(JObject(f)) + rest;
    assert e[0] == '{';
    if f.Field? {
      Assoc("{", PrintFields(f), rest);
      assert e[1..] == PrintFields(f) + rest;
      QuotedStarts(f, rest);
    } else {
      assert e == "{}" + rest && e[2..] == rest;
    }
  }

  lemma QuotedStarts(f: Fields, rest: string)
    requires f.Field?
    ensures PrintFields(f) + rest != "" && (PrintFields(f) + rest)[0] == '"'
  {
    assert Quoted(f.name)[0] == '"';
  }

  /** What follows a field decides how the object goes on. */
  function AfterField(name: string, value: Json, u: string): Option<(Fields, string)>
    requires u != ""
  {
    if u[0] == '}' then Some((Field(name, value, NoFields), u[1..]))
    else if u[0] != ',' then None
    else match ReadFields(u[1..])
      case None => None
      case Some((rest, v)) => Some((Field(name, value, rest), v))
  }

  lemma FieldStep(e: string, name: string, t: string, value: Json, u: string)
    requires e != "" && e[0] == '"' && ReadString(e[1..]) == Some((name, t))
    requires t != "" && t[0] == ':' && ReadValue(t[1..]) == Some((value, u)) && u != ""
    ensures ReadFields(e) == AfterField(name, value, u)
  {
  }

  lemma {:induction false} FieldsRoundTrip(f: Fields, rest: string)
    requires f.Field? && FieldsWritable(f)
    ensures ReadFields(PrintFields(f) + rest) == Some((CleanFields(f), rest))
    decreases f
  {
    var more := if f.rest.NoFields? then "}" else "," + PrintFields(f.rest);
    var tail := more + rest;
    assert tail[0] in {'}', ','};
    FieldNests(f, more, rest);
    var t := ":" + (Print(f.value) + tail);
    QuotedReads(f.name, t);
    AsciiIsValid(f.name);
    ValidIsSanitized(f.name);
    assert t[1..] == Print(f.value) + tail;
    ValueRoundTrip(f.value, tail);
    FieldStep(PrintFields(f) + rest, f.name, t, Clean(f.value), tail);
    if f.rest.NoFields? {
      assert tail[1..] == rest;
    } else {
      Assoc(",", PrintFields(f.rest), rest);
      assert tail[1..] == PrintFields(f.rest) + rest;
      FieldsRoundTrip(f.rest, rest);
    }
  }

  lemma FieldNests(f: Fields, more: string, rest: string)
    requires f.Field? && more == if f.rest.NoFields? then "}" else "," + PrintFields(f.rest)
    ensures PrintFields(f) + rest == Quoted(f.name) + (":" + (Print(f.value) + (more + rest)))
  {
    Assoc(Quoted(f.name), ":" + (Print(f.value) + more), rest);
    Assoc(":", Print(f.value) + more, rest);
    Assoc(Print(f.value), more, rest);
  }

  lemma RoundTrip(j: Json)
    requires Writable(j)
    ensures Read(Print(j)) == Some(Clean(j))
  {
    ValueRoundTrip(j, "");
    assert Print(j) + "" == Print(j);
  }

  // ---------------------------------------------------------------- a text cut short

  lemma {:induction false} StringExtends(e: string, x: string)
    requires ReadString(e).Some?
    ensures ReadString(e + x) == Some((ReadString(e).value.0, ReadString(e).value.1 + x))
    decreases |e|
  {
    assert (e + x)[0] == e[0];
    if e[0] == '"' {
      assert (e + x)[1..] == e[1..] + x;
    } else if e[0] == '\\' {
      EscapeExtends(e, x);
      var n := ReadEscape(e).value.1;
      assert (e + x)[n..] == e[n..] + x;
      StringExtends(e[n..], x);
    } else {
      assert (e + x)[1..] == e[1..] + x;
      StringExtends(e[1..], x);
    }
  }

  lemma EscapeExtends(e: string, x: string)
    requires e != "" && ReadEscape(e).Some?
    ensures ReadEscape(e + x) == ReadEscape(e)
  {
    assert (e + x)[1] == e[1];
    if |e| >= 6 { assert (e + x)[2..6] == e[2..6]; }
  }

  lemma {:induction false} NumberRunExtends(e: string, x: string)
    requires NumberRun(e) < |e|
    ensures NumberRun(e + x) == NumberRun(e)
  {
    assert (e + x)[0] == e[0];
    if NumberChar(e[0]) {
      assert (e + x)[1..] == e[1..] + x;
      NumberRunExtends(e[1..], x);
    }
  }

  /** What was read stays read when more text follows, unless a number might have gone on. */
  lemma {:induction false} ValueExtends(e: string, x: string)
    requires ReadValue(e).Some? && (ReadValue(e).value.1 != "" || !ReadValue(e).value.0.JNumber?)
    ensures ReadValue(e + x) == Some((ReadValue(e).value.0, ReadValue(e).value.1 + x))
    decreases |e|, 1
  {
    assert (e + x)[0] == e[0] && (e + x)[1..] == e[1..] + x;
    if e[0] == '"' {
      StringExtends(e[1..], x);
    } else if e[0] == '{' {
      if |e| > 1 && e[1] == '}' {
        assert (e + x)[2..] == e[2..] + x;
      } else {
        FieldsExtend(e[1..], x);
        assert e[1] == '"';
      }
    } else if "true" <= e || "false" <= e {
      WordExtends(e, x);
    } else {
      NumberExtends(e, x);
    }
  }

  lemma WordExtends(e: string, x: string)
    requires "true" <= e || "false" <= e
    ensures ReadValue(e).Some? && ReadValue(e + x) == Some((ReadValue(e).value.0, ReadValue(e).value.1 + x))
  {
    var n := if "true" <= e then 4 else 5;
    assert (e + x)[..n] == e[..n] && (e + x)[n..] == e[n..] + x;
    assert "false" <= e ==> !("true" <= e + x) by { assert (e + x)[0] == e[0]; }
  }

  lemma NumberExtends(e: string, x: string)
    requires NumberRun(e) < |e| && IsNumber(e[..NumberRun(e)])
    ensures ReadValue(e + x) == Some((JNumber(e[..NumberRun(e)]), e[NumberRun(e)..] + x))
  {
    var n := NumberRun(e);
    assert n > 0 && e[..n][0] == e[0] && NumberChar(e[0]);
    NumberRunExtends(e, x);
    assert (e + x)[0] == e[0] && (e + x)[..n] == e[..n] && (e + x)[n..] == e[n..] + x;
  }

  lemma {:induction false} FieldsExtend(e: string, x: string)
    requires ReadFields(e).Some?
    ensures ReadFields(e + x) == Some((ReadFields(e).value.0, ReadFields(e).value.1 + x))
    decreases |e|, 0
  {
    var (name, t) := ReadString(e[1..]).value;
    var (value, u) := ReadValue(t[1..]).value;
    Shift(e, x);
    StringExtends(e[1..], x);
    Shift(t, x);
    ValueExtends(t[1..], x);
    Shift(u, x);
    FieldStep(e, name, t, value, u);
    FieldStep(e + x, name, t + x, value, u + x);
    if u[0] == ',' { FieldsExtend(u[1..], x); }
  }

  lemma Shift(e: string, x: string)
    requires e != ""
    ensures e + x != "" && (e + x)[0] == e[0] && (e + x)[1..] == e[1..] + x
  {
  }

  /** No proper prefix of a printed object is a JSON text: a message cut anywhere is refused. */
  lemma CutIsRefused(f: Fields, p: nat)
    requires FieldsWritable(f) && p < |Print(JObject(f))|
    ensures Read(Print(JObject(f))[..p]).None?
  {
    var text := Print(JObject(f));
    var e, x := text[..p], text[p..];
    assert e + x == text;
    if Read(e).Some? {
      assert e[0] == text[0] == '{';
      ValueExtends(e, x);
      RoundTrip(JObject(f));
    }
  }
}
