/**
 The frontmatter scanner of SKILL.md (api/skill/frontmatter.go): opening and closing fences,
 and the body that is left.  A char stands for one byte.

 YAML decoding of the header is not modelled; the scan is.
 */
module Frontmatter {
  import opened Common

  const FENCE := "---"
  const BOM := "\U{EF}\U{BB}\U{BF}"

  predicate IsBlank(c: char) {
    c == ' ' || c == '\t' || c == '\r'
  }

  predicate IsBreak(c: char) {
    c == '\r' || c == '\n'
  }

  /** bytes.TrimRight(line, " \t\r") */
  function TrimRight(line: string): (r: string)
    ensures r <= line
  {
    if line != "" && IsBlank(line[|line| - 1]) then TrimRight(line[..|line| - 1]) else line
  }

  /** strings.TrimLeft(body, "\r\n") */
  function TrimBreaks(body: string): string {
    if body != "" && IsBreak(body[0]) then TrimBreaks(body[1..]) else body
  }

  /** A line that is --- and trailing blanks. */
  predicate IsFence(line: string) {
    TrimRight(line) == FENCE
  }

  /** Trimming takes spaces, tabs and carriage returns off the end, all of them, and nothing else. */
  lemma {:induction false} TrimRightExactly(line: string, kept: string)
    ensures TrimRight(line) == kept <==>
      && kept <= line && (forall i :: |kept| <= i < |line| ==> line[i] in {' ', '\t', '\r'})
      && (kept != "" ==> kept[|kept| - 1] !in {' ', '\t', '\r'})
  {
    if line != "" && IsBlank(line[|line| - 1]) {
      TrimRightExactly(line[..|line| - 1], kept);
    }
  }

  lemma FenceExactly(line: string)
    ensures IsFence(line) <==> "---" <= line && forall i :: 3 <= i < |line| ==> line[i] in {' ', '\t', '\r'}
  {
    TrimRightExactly(line, "---");
  }

  /** Trimming a body takes line breaks off its start, all of them, and nothing else. */
  lemma {:induction false} TrimBreaksExactly(body: string, kept: string)
    ensures TrimBreaks(body) == kept <==>
      && |kept| <= |body| && kept == body[|body| - |kept|..]
      && (forall i :: 0 <= i < |body| - |kept| ==> body[i] in {'\r', '\n'})
      && (kept != "" ==> kept[0] !in {'\r', '\n'})
  {
    if body != "" && IsBreak(body[0]) {
      TrimBreaksExactly(body[1..], kept);
      if |kept| < |body| {
        assert body[1..][|body| - 1 - |kept|..] == body[|body| - |kept|..];
        assert forall i :: 0 <= i < |body| - 1 - |kept| ==> body[1..][i] == body[i + 1];
      }
    }
  }

  /** Where the line starting at `from` ends: its newline, or the end of input. */
  function LineEnd(b: string, from: nat): (e: nat)
    requires from <= |b|
    ensures from <= e <= |b|
    ensures e < |b| ==> b[e] == '\n'
    ensures forall i :: from <= i < e ==> b[i] != '\n'
    decreases |b| - from
  {
    if from == |b| || b[from] == '\n' then from else LineEnd(b, from + 1)
  }

  /** The opening fence, if the content has one: what follows its line. */
  function CutOpening(content: string): Option<string> {
    var c := if BOM <= content then content[|BOM|..] else content;
    var e := LineEnd(c, 0);
    if e == |c| || !IsFence(c[..e]) then None else Some(c[e + 1..])
  }

  predicate LineStart(b: string, o: nat) {
    o <= |b| && (o == 0 || b[o - 1] == '\n')
  }

  predicate FenceAt(b: string, o: nat) {
    LineStart(b, o) && IsFence(b[o..LineEnd(b, o)])
  }

  /** The first fence line at or after a line start. */
  function ClosingFrom(b: string, o: nat): (r: Option<nat>)
    requires o <= |b|
    ensures r.Some? ==> o <= r.value < |b|
    decreases |b| - o
  {
    if o == |b| then None
    else
      var e := LineEnd(b, o);
      if IsFence(b[o..e]) then Some(o)
      else if e == |b| then None else ClosingFrom(b, e + 1)
  }

  function ClosingFence(b: string): Option<nat> {
    ClosingFrom(b, 0)
  }

  ghost predicate NoFence(b: string, from: nat, to: nat) {
    forall k :: from <= k < to ==> !FenceAt(b, k)
  }

  lemma {:induction false} ClosingFromIsLeast(b: string, o: nat)
    requires LineStart(b, o)
    ensures ClosingFrom(b, o).Some? ==> FenceAt(b, ClosingFrom(b, o).value) && NoFence(b, o, ClosingFrom(b, o).value)
    ensures ClosingFrom(b, o).None? ==> NoFence(b, o, |b| + 1)
    decreases |b| - o
  {
    var e := LineEnd(b, o);
    if o == |b| {
      assert b[o..e] == "";
    } else if !IsFence(b[o..e]) {
      NoFenceInLine(b, o);
      if e < |b| { ClosingFromIsLeast(b, e + 1); }
    }
  }

  lemma NoFenceInLine(b: string, o: nat)
    requires o <= |b| && !IsFence(b[o..LineEnd(b, o)])
    ensures NoFence(b, o, LineEnd(b, o) + 1)
  {
    forall k | o <= k <= LineEnd(b, o) ensures !FenceAt(b, k) {
      if k > o { assert !LineStart(b, k); }
    }
  }

  /** findClosingFence finds the least line start holding a fence, and none exactly when there is none. */
  lemma ClosingFenceIsLeast(b: string)
    ensures ClosingFence(b).Some? <==> exists k :: 0 <= k <= |b| && FenceAt(b, k)
    ensures ClosingFence(b).Some? ==>
      FenceAt(b, ClosingFence(b).value) && NoFence(b, 0, ClosingFence(b).value)
  {
    ClosingFromIsLeast(b, 0);
    if ClosingFence(b).Some? { assert FenceAt(b, ClosingFence(b).value); }
  }

  method FindClosingFence(b: string) returns (r: int)
    ensures r == match ClosingFence(b) case Some(o) => o case None => -1
  {
    var offset := 0;
    while offset < |b|
      invariant offset <= |b|
      invariant ClosingFence(b) == ClosingFrom(b, offset)
      decreases |b| - offset
    {
      var e := LineEnd(b, offset);
      if IsFence(b[offset..e]) { return offset; }
      if e == |b| { break; }
      offset := e + 1;
    }
    return -1;
  }

  /** The header Parse hands to the YAML decoder. */
  function Header(content: string): Option<string> {
    match CutOpening(content)
    case None => None
    case Some(rest) =>
      match ClosingFence(rest)
      case None => None
      case Some(o) => Some(rest[..o])
  }

  method ParseHeader(content: string) returns (r: Option<string>)
    ensures r == Header(content)
  {
    var cut := CutOpening(content);
    if cut.None? { return None; }
    var end := FindClosingFence(cut.value);
    if end < 0 { return None; }
    return Some(cut.value[..end]);
  }

  /** What follows the closing line: nothing when it has no newline. */
  function AfterLine(b: string, o: nat): string
    requires o <= |b|
  {
    var e := LineEnd(b, o);
    if e == |b| then "" else b[e + 1..]
  }

  function BodyOf(content: string): string {
    match CutOpening(content)
    case None => content
    case Some(rest) =>
      match ClosingFence(rest)
      case None => content
      case Some(o) => TrimBreaks(AfterLine(rest, o))
  }

  method Body(content: string) returns (body: string)
    ensures body == BodyOf(content)
  {
    var cut := CutOpening(content);
    if cut.None? { return content; }
    var rest := cut.value;
    var end := FindClosingFence(rest);
    if end < 0 { return content; }
    body := rest[end..];
    ghost var after := AfterLine(body, 0);
    assert BodyOf(content) == TrimBreaks(after) by { AfterLineShift(rest, end); }
    var nl := LineEnd(body, 0);
    if nl < |body| {
      body := body[nl + 1..];
    } else {
      body := "";
    }
    assert body == after;
    body := TrimBreaks(body);
  }

  lemma AfterLineShift(b: string, o: nat)
    requires o <= |b|
    ensures AfterLine(b, o) == AfterLine(b[o..], 0)
  {
    LineEndShift(b, o);
    var e := LineEnd(b[o..], 0);
    if e < |b[o..]| { DropDrop(b, o, e + 1); }
  }

  lemma LineEndShift(b: string, o: nat)
    requires o <= |b|
    ensures LineEnd(b, o) == o + LineEnd(b[o..], 0)
  {
    var e, f := LineEnd(b, o), LineEnd(b[o..], 0);
    assert f < |b[o..]| ==> b[o + f] == '\n';
    assert e < |b| ==> b[o..][e - o] == '\n';
  }

  // ---------------------------------------------------------------- partition

  predicate AllBreaks(s: string) {
    forall i :: 0 <= i < |s| ==> IsBreak(s[i])
  }

  lemma {:induction false} TrimBreaksSplits(s: string)
    ensures |TrimBreaks(s)| <= |s| && TrimBreaks(s) == s[|s| - |TrimBreaks(s)|..]
    ensures AllBreaks(s[..|s| - |TrimBreaks(s)|])
    ensures TrimBreaks(s) != "" ==> !IsBreak(TrimBreaks(s)[0])
  {
    if s != "" && IsBreak(s[0]) {
      TrimBreaksSplits(s[1..]);
      var n := |s| - |TrimBreaks(s)|;
      assert s[..n] == [s[0]] + s[1..][..n - 1];
    }
  }

  /** The pieces of a file with frontmatter, in order. */
  datatype Parts = Parts(mark: string, opening: string, header: string, closing: string, gap: string, body: string)

  function Whole(p: Parts): string {
    p.mark + p.opening + p.header + p.closing + p.gap + p.body
  }

  ghost predicate FenceLine(line: string, terminated: bool) {
    if terminated then line != "" && line[|line| - 1] == '\n' && '\n' !in line[..|line| - 1] && IsFence(line[..|line| - 1])
    else '\n' !in line && IsFence(line)
  }

  ghost predicate WellParted(p: Parts) {
    && (p.mark == "" || p.mark == BOM)
    && FenceLine(p.opening, true)
    && (FenceLine(p.closing, true) || (FenceLine(p.closing, false) && p.gap == "" && p.body == ""))
    && (p.header == "" || p.header[|p.header| - 1] == '\n')
    && NoFence(p.header, 0, |p.header|)
    && AllBreaks(p.gap) && (p.body != "" ==> !IsBreak(p.body[0]))
  }

  lemma CutOpen(content: string) returns (mark: string, opening: string)
    requires CutOpening(content).Some?
    ensures content == mark + (opening + CutOpening(content).value)
    ensures (mark == "" || mark == BOM) && FenceLine(opening, true)
  {
    mark := if BOM <= content then BOM else "";
    var c := content[|mark|..];
    assert content == mark + c by {
      SplitAt(content, |mark|);
      assert content[..|mark|] == mark;
    }
    opening := CutFirst(c);
  }

  lemma CutFirst(c: string) returns (line: string)
    requires var e := LineEnd(c, 0); e < |c| && IsFence(c[..e])
    ensures c == line + c[LineEnd(c, 0) + 1..] && FenceLine(line, true)
  {
    var e := LineEnd(c, 0);
    line := c[..e + 1];
    SplitAt(c, e + 1);
    assert line[..|line| - 1] == c[..e];
  }

  lemma CutClosing(rest: string, o: nat) returns (closing: string, gap: string, body: string)
    requires o <= |rest| && IsFence(rest[o..LineEnd(rest, o)])
    ensures rest[o..] == closing + (gap + body)
    ensures body == TrimBreaks(AfterLine(rest, o)) && AllBreaks(gap) && (body != "" ==> !IsBreak(body[0]))
    ensures FenceLine(closing, true) || (FenceLine(closing, false) && gap == "" && body == "")
  {
    var after := AfterLine(rest, o);
    gap, body := CutBreaks(after);
    closing := CutLine(rest, o);
  }

  lemma CutBreaks(s: string) returns (gap: string, body: string)
    ensures s == gap + body && body == TrimBreaks(s) && AllBreaks(gap) && (body != "" ==> !IsBreak(body[0]))
  {
    TrimBreaksSplits(s);
    var n := |s| - |TrimBreaks(s)|;
    gap, body := s[..n], s[n..];
  }

  lemma CutLine(rest: string, o: nat) returns (line: string)
    requires o <= |rest| && IsFence(rest[o..LineEnd(rest, o)])
    ensures rest[o..] == line + AfterLine(rest, o)
    ensures FenceLine(line, true) || (FenceLine(line, false) && AfterLine(rest, o) == "")
  {
    var b := rest[o..];
    AfterLineShift(rest, o);
    LineEndShift(rest, o);
    var e := LineEnd(b, 0);
    assert rest[o..LineEnd(rest, o)] == b[..e];
    if e < |b| {
      line := CutFirst(b);
    } else {
      line := b;
      assert b[..e] == b && b + "" == b;
    }
  }

  lemma WholeNests(p: Parts)
    ensures Whole(p) == p.mark + (p.opening + (p.header + (p.closing + (p.gap + p.body))))
  {
  }

  /** Body strips exactly when Parse's scan finds a header, and then the file is its parts. */
  lemma ScanPartitions(content: string)
    ensures Header(content).None? ==> BodyOf(content) == content
    ensures Header(content).Some? ==>
      exists p :: WellParted(p) && Whole(p) == content && p.header == Header(content).value && p.body == BodyOf(content)
  {
    if CutOpening(content).Some? && ClosingFence(CutOpening(content).value).Some? {
      var rest := CutOpening(content).value;
      var p := PartsOf(content, rest, ClosingFence(rest).value);
    }
  }

  lemma PartsOf(content: string, rest: string, o: nat) returns (p: Parts)
    requires CutOpening(content) == Some(rest) && ClosingFence(rest) == Some(o)
    ensures WellParted(p) && Whole(p) == content && p.header == rest[..o] && p.body == TrimBreaks(AfterLine(rest, o))
  {
    ClosingFromIsLeast(rest, 0);
    var mark, opening := CutOpen(content);
    var closing, gap, body := CutClosing(rest, o);
    p := Parts(mark, opening, rest[..o], closing, gap, body);
    HeaderHasNoFence(rest, o);
    assert rest == rest[..o] + (closing + (gap + body)) by { SplitAt(rest, o); }
    WholeNests(p);
  }

  lemma LineEndPrefix(b: string, o: nat, k: nat)
    requires k < o <= |b| && b[o - 1] == '\n'
    ensures LineEnd(b[..o], k) == LineEnd(b, k) < o
  {
    var e, f := LineEnd(b, k), LineEnd(b[..o], k);
    assert b[..o][o - 1] == '\n';
    assert f < o && b[..o][f] == b[f];
    assert e <= f;
    assert b[..o][e] == b[e];
  }

  /** Cutting at a line start does not change the lines before it. */
  lemma HeaderHasNoFence(b: string, o: nat)
    requires LineStart(b, o) && NoFence(b, 0, o)
    ensures NoFence(b[..o], 0, o)
  {
    var c := b[..o];
    forall k | 0 <= k < o ensures !FenceAt(c, k) {
      LineEndPrefix(b, o, k);
      var e := LineEnd(b, k);
      assert LineEnd(c, k) == e && c[k..e] == b[k..e];
      assert k > 0 ==> c[k - 1] == b[k - 1];
      assert !FenceAt(b, k);
    }
  }

  // ---------------------------------------------------------------- round trip

  /** A header line that is no fence is passed over. */
  lemma LineSkipped(h: string, t: string, o: nat)
    requires o < |h| && LineStart(h, o) && h[|h| - 1] == '\n' && NoFence(h, 0, |h|)
    ensures var e := LineEnd(h, o); e < |h| && LineStart(h, e + 1) && ClosingFrom(h + t, o) == ClosingFrom(h + t, e + 1)
  {
    LineKept(h, t, o);
    assert !FenceAt(h, o);
  }

  lemma LineKept(h: string, t: string, o: nat)
    requires o < |h| && h[|h| - 1] == '\n'
    ensures var e := LineEnd(h, o); e < |h| && LineEnd(h + t, o) == e && (h + t)[o..e] == h[o..e]
  {
    var b := h + t;
    assert b[|h| - 1] == '\n' && b[..|h|] == h;
    LineEndPrefix(b, |h|, o);
  }

  lemma FenceFollows(h: string, t: string)
    requires t != "" && IsFence(t[..LineEnd(t, 0)])
    ensures ClosingFrom(h + t, |h|) == Some(|h|)
  {
    var b := h + t;
    LineEndShift(b, |h|);
    assert b[|h|..] == t;
    assert b[|h|..LineEnd(b, |h|)] == t[..LineEnd(t, 0)];
  }

  lemma {:induction false} ClosingSkipsHeader(h: string, t: string, o: nat)
    requires o <= |h| && LineStart(h, o) && (h == "" || h[|h| - 1] == '\n')
    requires NoFence(h, 0, |h|)
    requires t != "" && IsFence(t[..LineEnd(t, 0)])
    ensures ClosingFrom(h + t, o) == Some(|h|)
    decreases |h| - o
  {
    if o == |h| {
      FenceFollows(h, t);
    } else {
      LineSkipped(h, t, o);
      ClosingSkipsHeader(h, t, LineEnd(h, o) + 1);
    }
  }

  lemma LineEndAt(b: string, line: string)
    requires line <= b && '\n' !in line && (|line| == |b| || b[|line|] == '\n')
    ensures LineEnd(b, 0) == |line|
  {
    var e := LineEnd(b, 0);
    assert forall i :: 0 <= i < |line| ==> b[i] == line[i] && b[i] != '\n';
  }

  lemma {:induction false} TrimBreaksOf(gap: string, body: string)
    requires AllBreaks(gap) && (body != "" ==> !IsBreak(body[0]))
    ensures TrimBreaks(gap + body) == body
  {
    if gap == "" {
      assert gap + body == body;
    } else {
      assert (gap + body)[1..] == gap[1..] + body;
      TrimBreaksOf(gap[1..], body);
    }
  }

  /** A fence line never starts with a byte-order mark. */
  lemma FenceHasNoMark(line: string)
    requires FenceLine(line, true)
    ensures |line| >= 4 && line[0] == '-' && !(BOM <= line)
  {
    var l := line[..|line| - 1];
    assert FENCE <= l;
    assert l[0] == FENCE[0];
    assert BOM[0] != '-';
  }

  /** Printing any well-formed parts and scanning the result gives the header and the body back. */
  lemma PrintThenScan(p: Parts)
    requires WellParted(p)
    ensures Header(Whole(p)) == Some(p.header) && BodyOf(Whole(p)) == p.body
  {
    var tail := p.closing + (p.gap + p.body);
    var rest := p.header + tail;
    WholeNests(p);
    FenceHasNoMark(p.opening);
    OpeningCut(p, p.opening + rest, rest);
    ScanRest(p, tail, rest);
  }

  lemma ScanRest(p: Parts, tail: string, rest: string)
    requires WellParted(p) && tail == p.closing + (p.gap + p.body) && rest == p.header + tail
    ensures ClosingFence(rest) == Some(|p.header|) && |p.header| <= |rest| && rest[..|p.header|] == p.header
    ensures TrimBreaks(AfterLine(rest, |p.header|)) == p.body
  {
    ClosingLine(p, tail);
    ClosingSkipsHeader(p.header, tail, 0);
    AfterClosing(p.header, tail, p.gap + p.body);
    TrimBreaksOf(p.gap, p.body);
  }

  lemma AfterClosing(h: string, tail: string, after: string)
    requires var e := LineEnd(tail, 0); if e == |tail| then after == "" else tail[e + 1..] == after
    ensures AfterLine(h + tail, |h|) == after
  {
    var rest := h + tail;
    LineEndShift(rest, |h|);
    assert rest[|h|..] == tail;
    var e := LineEnd(tail, 0);
    if e < |tail| { assert rest[|h| + e + 1..] == tail[e + 1..]; }
  }

  lemma OpeningCut(p: Parts, c: string, rest: string)
    requires FenceLine(p.opening, true) && c == p.opening + rest && (p.mark == "" || p.mark == BOM)
    requires |p.opening| >= 4 && p.opening[0] == '-'
    ensures CutOpening(p.mark + c) == Some(rest)
  {
    var content := p.mark + c;
    assert BOM <= content <==> p.mark == BOM by {
      if p.mark == "" { assert content[0] == '-' && BOM[0] != '-'; }
    }
    assert content[|p.mark|..] == c;
    LineEndAt(c, p.opening[..|p.opening| - 1]);
    assert c[..|p.opening| - 1] == p.opening[..|p.opening| - 1];
    assert c[|p.opening|..] == rest;
  }

  lemma ClosingLine(p: Parts, tail: string)
    requires WellParted(p) && tail == p.closing + (p.gap + p.body)
    ensures tail != "" && IsFence(tail[..LineEnd(tail, 0)])
    ensures var e := LineEnd(tail, 0);
      if e == |tail| then p.gap + p.body == "" else tail[e + 1..] == p.gap + p.body
  {
    if FenceLine(p.closing, true) {
      LineThenRest(p.closing, p.gap + p.body);
    } else {
      assert tail == p.closing;
      LineEndAt(tail, p.closing);
      assert tail[..|tail|] == tail;
    }
  }

  lemma LineThenRest(line: string, rest: string)
    requires FenceLine(line, true)
    ensures LineEnd(line + rest, 0) == |line| - 1 && IsFence((line + rest)[..|line| - 1]) && (line + rest)[|line|..] == rest
  {
    var l := line[..|line| - 1];
    LineEndAt(line + rest, l);
    assert (line + rest)[..|l|] == l;
  }

  // ---------------------------------------------------------------- names

  const MAX_NAME := 64

  predicate IsNameChar(c: char) {
    'a' <= c <= 'z' || '0' <= c <= '9' || c == '-'
  }

  /** ValidName: 1 to 64 lowercase letters, digits and single inner hyphens. */
  predicate ValidName(name: string) {
    && 0 < |name| <= MAX_NAME
    && name[0] != '-' && name[|name| - 1] != '-'
    && (forall i :: 0 <= i < |name| - 1 ==> !(name[i] == '-' && name[i + 1] == '-'))
    && (forall i :: 0 <= i < |name| ==> IsNameChar(name[i]))
  }

  /** A valid name is one plain path segment, and never a dotfile. */
  lemma ValidNameIsSegment(name: string)
    requires ValidName(name)
    ensures '/' !in name && '.' !in name && name != "" && name[0] != '.'
  {
    forall c | c in name ensures IsNameChar(c) {
      var i :| 0 <= i < |name| && name[i] == c;
    }
  }

  /** The words between hyphens. */
  function Words(name: string): (ws: seq<string>)
    ensures ws != []
  {
    if name == "" then [""]
    else
      var rest := Words(name[1..]);
      if name[0] == '-' then [""] + rest else [[name[0]] + rest[0]] + rest[1..]
  }

  predicate IsWord(w: string) {
    w != "" && forall i :: 0 <= i < |w| ==> 'a' <= w[i] <= 'z' || '0' <= w[i] <= '9'
  }

  /**
   A name is valid exactly if it is words of lowercase letters and digits with one hyphen between
   any two, of 64 characters at most.
   */
  lemma ValidNameExactly(name: string)
    ensures ValidName(name) <==> |name| <= 64 && AllWords(Words(name))
  {
    WordsAreWords(name);
  }

  /** No hyphen at the end or doubled, and only name characters; what comes first is up to the caller. */
  predicate Tail(name: string) {
    && name != "" && name[|name| - 1] != '-'
    && (forall i :: 0 <= i < |name| - 1 ==> !(name[i] == '-' && name[i + 1] == '-'))
    && (forall i :: 0 <= i < |name| ==> IsNameChar(name[i]))
  }

  predicate AllWords(ws: seq<string>) {
    forall i :: 0 <= i < |ws| ==> IsWord(ws[i])
  }

  lemma {:induction false} WordsAreWords(name: string)
    ensures AllWords(Words(name)) <==> Tail(name) && name[0] != '-'
  {
    if name == "" || name[0] == '-' {
      assert !IsWord(Words(name)[0]);
    } else if |name| == 1 {
      OneCharacter(name);
    } else if name[1] == '-' {
      WordsAreWords(name[2..]);
      HyphenNext(name);
    } else {
      WordsAreWords(name[1..]);
      WordGrows(name);
    }
  }

  lemma AllWordsCons(w: string, ws: seq<string>)
    ensures AllWords([w] + ws) <==> IsWord(w) && AllWords(ws)
  {
    var all := [w] + ws;
    assert all[0] == w && forall i :: 0 <= i < |ws| ==> all[i + 1] == ws[i];
  }

  lemma GrownWord(c: char, w: string)
    requires w != "" && c != '-'
    ensures IsWord([c] + w) <==> IsNameChar(c) && IsWord(w)
  {
    var grown := [c] + w;
    assert grown[0] == c && forall i :: 0 <= i < |w| ==> grown[i + 1] == w[i];
  }

  /** A first word of one character, and then the others. */
  lemma HyphenNext(name: string)
    requires |name| > 1 && name[0] != '-' && name[1] == '-'
    requires AllWords(Words(name[2..])) <==> Tail(name[2..]) && name[2..][0] != '-'
    ensures AllWords(Words(name)) <==> Tail(name)
  {
    var u, ws := name[2..], Words(name[2..]);
    assert name[1..][1..] == u;
    assert Words(name[1..]) == [""] + ws;
    assert [name[0]] + "" == [name[0]];
    assert Words(name) == [[name[0]]] + ws;
    var first := [name[0]];
    assert first[0] == name[0];
    assert IsWord(first) <==> IsNameChar(name[0]);
    AllWordsCons(first, ws);
    HyphenTail(name);
  }

  lemma HyphenTail(name: string)
    requires |name| > 1 && name[0] != '-' && name[1] == '-'
    ensures Tail(name) <==> IsNameChar(name[0]) && Tail(name[2..]) && name[2..][0] != '-'
  {
    var u := name[2..];
    assert forall i :: 0 <= i < |u| ==> u[i] == name[i + 2];
    if Tail(u) && u[0] != '-' && IsNameChar(name[0]) {
      forall i | 0 <= i < |name| - 1 ensures !(name[i] == '-' && name[i + 1] == '-') {
        if i >= 2 { assert u[i - 2] == name[i] && u[i - 1] == name[i + 1]; }
      }
      forall i | 0 <= i < |name| ensures IsNameChar(name[i]) {
        if i >= 2 { assert u[i - 2] == name[i]; }
      }
    }
    if Tail(name) {
      assert !(name[1] == '-' && name[2] == '-');
      forall i | 0 <= i < |u| - 1 ensures !(u[i] == '-' && u[i + 1] == '-') {
        assert u[i] == name[i + 2] && u[i + 1] == name[i + 3];
      }
    }
  }

  /** A first word that goes on. */
  lemma WordGrows(name: string)
    requires |name| > 1 && name[0] != '-' && name[1] != '-'
    requires AllWords(Words(name[1..])) <==> Tail(name[1..]) && name[1..][0] != '-'
    ensures AllWords(Words(name)) <==> Tail(name)
  {
    var t, ws := name[1..], Words(name[1..]);
    var first := [name[0]] + ws[0];
    assert Words(name) == [first] + ws[1..];
    assert ws[0] != "";
    GrownWord(name[0], ws[0]);
    AllWordsCons(first, ws[1..]);
    AllWordsCons(ws[0], ws[1..]);
    assert ws == [ws[0]] + ws[1..];
    WordTail(name);
  }

  lemma WordTail(name: string)
    requires |name| > 1 && name[0] != '-' && name[1] != '-'
    ensures Tail(name) <==> IsNameChar(name[0]) && Tail(name[1..])
  {
    var t := name[1..];
    assert forall i :: 0 <= i < |t| ==> t[i] == name[i + 1];
    if Tail(t) && IsNameChar(name[0]) {
      forall i | 0 <= i < |name| - 1 ensures !(name[i] == '-' && name[i + 1] == '-') {
        if i >= 1 { assert t[i - 1] == name[i] && t[i] == name[i + 1]; }
      }
      forall i | 0 <= i < |name| ensures IsNameChar(name[i]) {
        if i >= 1 { assert t[i - 1] == name[i]; }
      }
    }
    if Tail(name) {
      forall i | 0 <= i < |t| - 1 ensures !(t[i] == '-' && t[i + 1] == '-') {
        assert t[i] == name[i + 1] && t[i + 1] == name[i + 2];
      }
    }
  }

  lemma OneCharacter(name: string)
    requires |name| == 1
    ensures AllWords(Words(name)) <==> Tail(name) && name[0] != '-'
  {
    assert name[1..] == "" && [name[0]] + "" == name;
    if name[0] == '-' {
      assert Words(name)[0] == "" && !IsWord(Words(name)[0]);
    } else {
      assert Words(name) == [name];
      assert IsWord(name) <==> IsNameChar(name[0]);
      assert IsWord(Words(name)[0]) <==> IsWord(name);
    }
  }
}
