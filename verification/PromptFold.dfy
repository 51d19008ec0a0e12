/**
 Folding a turn's notification stream into a prompt result (harness/internal/acp/session.go).

 `Absorb` says what one notification does; `Collector` is SendPrompt's accumulator, updated
 in place.  The lemmas give the fold a closed form: what the closing text is a function of,
 what the counters count, and when the cost limit fires.
 */
module PromptFold {
  import opened Common

  /** A session/update or goose update frame, already parsed. */
  datatype Update =
    | AgentText(text: string, messageId: string)
    | UserChunk
    | ToolCall
    | Usage(cost: Option<real>, used: int, size: int, contextLimit: int)
    | Notice(message: string)
    | Other

  datatype PromptResult = PromptResult(
    stopReason: string,
    chunks: seq<string>,
    costLimitReached: bool,
    cost: real,
    turnsUsed: nat,
    contextUsed: int,
    contextSize: int,
    closing: seq<string>,
    closingMessageId: string,
    notices: seq<string>)

  const EMPTY := PromptResult("", [], false, 0.0, 0, 0, 0, [], "", [])

  function AppendClosing(r: PromptResult, text: string, id: string): PromptResult {
    var n := |r.closing|;
    if n > 0 && (id == "" || id == r.closingMessageId)
    then r.(closing := r.closing[n - 1 := r.closing[n - 1] + text], closingMessageId := id)
    else r.(closing := r.closing + [text], closingMessageId := id)
  }

  function TrackUsage(r: PromptResult, u: Update): PromptResult
    requires u.Usage?
  {
    var r := if u.cost.None? then r else r.(cost := u.cost.value);
    var size := if u.size == 0 then u.contextLimit else u.size;
    if size > 0 then r.(contextUsed := u.used, contextSize := size) else r
  }

  function Absorb(r: PromptResult, u: Update): PromptResult {
    match u
    case AgentText(t, id) => AppendClosing(r.(chunks := r.chunks + [t]), t, id)
    case UserChunk => r.(closing := [])
    case ToolCall => r.(turnsUsed := r.turnsUsed + 1, closing := [])
    case Usage(_, _, _, _) => TrackUsage(r, u)
    case Notice(m) => if m == "" then r else r.(notices := r.notices + [m])
    case Other => r
  }

  function Fold(r: PromptResult, us: seq<Update>): PromptResult {
    if us == [] then r else Absorb(Fold(r, us[..|us| - 1]), us[|us| - 1])
  }

  // ---------------------------------------------------------------- the closing text

  predicate Resets(u: Update) {
    u.ToolCall? || u.UserChunk?
  }

  /** The events after the last tool call or human steer. */
  function Tail(us: seq<Update>): seq<Update> {
    if us == [] || Resets(us[|us| - 1]) then []
    else Tail(us[..|us| - 1]) + [us[|us| - 1]]
  }

  function Texts(us: seq<Update>): seq<string> {
    if us == [] then []
    else Texts(us[..|us| - 1]) + if us[|us| - 1].AgentText? then [us[|us| - 1].text] else []
  }

  function Concat(ss: seq<string>): string {
    if ss == [] then "" else Concat(ss[..|ss| - 1]) + ss[|ss| - 1]
  }

  function CountToolCalls(us: seq<Update>): nat {
    if us == [] then 0
    else CountToolCalls(us[..|us| - 1]) + if us[|us| - 1].ToolCall? then 1 else 0
  }

  lemma ConcatExtend(ss: seq<string>, t: string)
    ensures Concat(ss + [t]) == Concat(ss) + t
    ensures ss != [] ==> Concat(ss[|ss| - 1 := ss[|ss| - 1] + t]) == Concat(ss) + t
  {
    assert (ss + [t])[..|ss|] == ss;
    if ss != [] {
      var k := |ss| - 1;
      var ext := ss[k := ss[k] + t];
      assert ext[..k] == ss[..k];
      assert Concat(ext) == Concat(ss[..k]) + (ss[k] + t);
    }
  }

  /** The tail is a suffix that holds no reset, and whatever precedes it ends in one. */
  lemma {:induction false} TailIsSuffix(us: seq<Update>)
    ensures |Tail(us)| <= |us| && Tail(us) == us[|us| - |Tail(us)|..]
    ensures forall u :: u in Tail(us) ==> !Resets(u)
    ensures |Tail(us)| < |us| ==> Resets(us[|us| - |Tail(us)| - 1])
  {
    if us != [] && !Resets(us[|us| - 1]) {
      TailIsSuffix(us[..|us| - 1]);
    }
  }

  /** Two results that can only differ in a stale message id end with the same closing text. */
  ghost predicate SameClosing(a: PromptResult, b: PromptResult) {
    a.closing == b.closing && (a.closing != [] ==> a.closingMessageId == b.closingMessageId)
  }

  lemma AbsorbClosing(a: PromptResult, b: PromptResult, u: Update)
    requires SameClosing(a, b) && !Resets(u)
    ensures SameClosing(Absorb(a, u), Absorb(b, u))
    ensures u.AgentText? ==> Concat(Absorb(a, u).closing) == Concat(a.closing) + u.text
    ensures !u.AgentText? ==> Absorb(a, u).closing == a.closing
  {
    if u.AgentText? {
      ConcatExtend(a.closing, u.text);
    }
  }

  lemma {:induction false} ClosingFromTail(a: PromptResult, b: PromptResult, us: seq<Update>)
    requires a.closing == [] && b.closing == []
    ensures SameClosing(Fold(a, us), Fold(b, Tail(us)))
    ensures Concat(Fold(a, us).closing) == Concat(Texts(Tail(us)))
  {
    if us != [] && !Resets(us[|us| - 1]) {
      var front, last := us[..|us| - 1], us[|us| - 1];
      ClosingFromTail(a, b, front);
      AbsorbClosing(Fold(a, front), Fold(b, Tail(front)), last);
      FoldSnoc(b, Tail(front), last);
      var t := Tail(us);
      assert t[..|t| - 1] == Tail(front) && t[|t| - 1] == last;
      if last.AgentText? {
        ConcatExtend(Texts(Tail(front)), last.text);
      } else {
        assert Texts(t) == Texts(Tail(front));
      }
    }
  }

  /** The closing text depends only on the events after the last reset, whatever id was left behind. */
  lemma ClosingDependsOnTailOnly(us: seq<Update>, vs: seq<Update>, staleId: string)
    requires Tail(us) == Tail(vs)
    ensures Fold(EMPTY, us).closing == Fold(EMPTY.(closingMessageId := staleId), vs).closing
    ensures Concat(Fold(EMPTY, us).closing) == Concat(Texts(Tail(us)))
  {
    ClosingFromTail(EMPTY, EMPTY, us);
    ClosingFromTail(EMPTY.(closingMessageId := staleId), EMPTY, vs);
  }

  /** Every text chunk is kept, in order; turns are tool calls. */
  lemma {:induction false} FoldCounts(r: PromptResult, us: seq<Update>)
    ensures Fold(r, us).chunks == r.chunks + Texts(us)
    ensures Fold(r, us).turnsUsed == r.turnsUsed + CountToolCalls(us)
    ensures Fold(r, us).costLimitReached == r.costLimitReached
  {
    if us != [] {
      FoldCounts(r, us[..|us| - 1]);
    }
  }

  /** The last cost that was reported; it may be missing from a usage update. */
  function LastCost(us: seq<Update>): real {
    if us == [] then 0.0
    else match us[|us| - 1]
      case Usage(Some(cost), _, _, _) => cost
      case _ => LastCost(us[..|us| - 1])
  }

  /** The last occupancy reported with a context size, which may come under either of two names. */
  function LastOccupancy(us: seq<Update>): (int, int) {
    if us == [] then (0, 0)
    else match us[|us| - 1]
      case Usage(_, used, size, limit) =>
        if size > 0 then (used, size)
        else if size == 0 && limit > 0 then (used, limit)
        else LastOccupancy(us[..|us| - 1])
      case _ => LastOccupancy(us[..|us| - 1])
  }

  /** Every notice that says something. */
  function NoticeTexts(us: seq<Update>): seq<string> {
    if us == [] then []
    else NoticeTexts(us[..|us| - 1])
         + match us[|us| - 1] case Notice(m) => (if m == "" then [] else [m]) case _ => []
  }

  /** Cost and occupancy are the last ones reported, and every notice is kept. */
  lemma {:induction false} FoldUsage(us: seq<Update>)
    ensures Fold(EMPTY, us).cost == LastCost(us)
    ensures (Fold(EMPTY, us).contextUsed, Fold(EMPTY, us).contextSize) == LastOccupancy(us)
    ensures Fold(EMPTY, us).notices == NoticeTexts(us)
    ensures Fold(EMPTY, us).stopReason == ""
  {
    if us != [] {
      FoldUsage(us[..|us| - 1]);
    }
  }

  lemma FoldSnoc(r: PromptResult, us: seq<Update>, u: Update)
    ensures Fold(r, us + [u]) == Absorb(Fold(r, us), u)
  {
    assert (us + [u])[..|us|] == us;
  }

  // ---------------------------------------------------------------- messages

  datatype Chunk = Chunk(text: string, id: string)

  function Chunks(us: seq<Update>): seq<Chunk> {
    if us == [] then []
    else
      var u := us[|us| - 1];
      Chunks(us[..|us| - 1]) + if u.AgentText? then [Chunk(u.text, u.messageId)] else []
  }

  /** A chunk starts a message if it is the first, or carries an id that is not its predecessor's. */
  predicate StartsMessage(cs: seq<Chunk>, i: nat)
    requires i < |cs|
  {
    i == 0 || (cs[i].id != "" && cs[i].id != cs[i - 1].id)
  }

  /** Where messages start. */
  function Starts(cs: seq<Chunk>): seq<nat> {
    if cs == [] then []
    else Starts(cs[..|cs| - 1]) + if StartsMessage(cs, |cs| - 1) then [|cs| - 1] else []
  }

  lemma {:induction false} StartsAreExact(cs: seq<Chunk>)
    ensures var at := Starts(cs);
      && (forall a, b :: 0 <= a < b < |at| ==> at[a] < at[b])
      && (forall a :: 0 <= a < |at| ==> at[a] < |cs| && StartsMessage(cs, at[a]))
      && (forall i :: 0 <= i < |cs| && StartsMessage(cs, i) ==> i in at)
    ensures cs != [] ==> Starts(cs) != [] && Starts(cs)[0] == 0
  {
    if cs != [] {
      var n := |cs| - 1;
      StartsAreExact(cs[..n]);
      forall i | 0 <= i < n ensures StartsMessage(cs[..n], i) <==> StartsMessage(cs, i) {}
    }
  }

  /** The chunks' texts, run together within each message. */
  function Messages(cs: seq<Chunk>): seq<string> {
    if cs == [] then []
    else
      var n := |cs| - 1;
      var front := Messages(cs[..n]);
      if StartsMessage(cs, n) || front == [] then front + [cs[n].text]
      else front[|front| - 1 := front[|front| - 1] + cs[n].text]
  }

  function ChunkTexts(cs: seq<Chunk>): seq<string> {
    if cs == [] then [] else ChunkTexts(cs[..|cs| - 1]) + [cs[|cs| - 1].text]
  }

  lemma ChunkTextsSnoc(cs: seq<Chunk>, c: Chunk)
    ensures Concat(ChunkTexts(cs + [c])) == Concat(ChunkTexts(cs)) + c.text
  {
    assert (cs + [c])[..|cs|] == cs;
    ConcatExtend(ChunkTexts(cs), c.text);
  }

  /** Where the m-th message ends. */
  function End(at: seq<nat>, m: nat, n: nat): nat
    requires m < |at|
  {
    if m + 1 < |at| then at[m + 1] else n
  }

  lemma {:induction false} MessageCount(cs: seq<Chunk>)
    ensures |Messages(cs)| == |Starts(cs)|
  {
    if cs != [] {
      MessageCount(cs[..|cs| - 1]);
      if |cs| > 1 { StartsAreExact(cs[..|cs| - 1]); }
    }
  }

  ghost predicate HoldsTexts(cs: seq<Chunk>, m: nat)
    requires m < |Starts(cs)|
  {
    var at := Starts(cs);
    && |Messages(cs)| == |at| && at[m] < End(at, m, |cs|) <= |cs|
    && Messages(cs)[m] == Concat(ChunkTexts(cs[at[m]..End(at, m, |cs|)]))
  }

  /** There is one message per start, and it holds the texts up to the next one. */
  lemma {:induction false} MessageAt(cs: seq<Chunk>, m: nat)
    requires m < |Starts(cs)|
    ensures HoldsTexts(cs, m)
  {
    var n := |cs| - 1;
    var front := cs[..n];
    assert front + [cs[n]] == cs;
    if m < |Starts(front)| {
      MessageAt(front, m);
      EarlierMessage(front, cs[n], m);
    } else {
      NewMessage(front, cs[n]);
    }
  }

  lemma NewMessage(front: seq<Chunk>, c: Chunk)
    requires StartsMessage(front + [c], |front|)
    ensures |Starts(front + [c])| == |Starts(front)| + 1 && HoldsTexts(front + [c], |Starts(front)|)
  {
    MessageCount(front);
    StartsSnoc(front, c);
    MessagesSnoc(front, c);
    LastSlice(front, c);
    OneText(c);
  }

  lemma LastSlice(front: seq<Chunk>, c: Chunk)
    ensures (front + [c])[|front|..|front| + 1] == [c]
  {
  }

  lemma OneText(c: Chunk)
    ensures Concat(ChunkTexts([c])) == c.text
  {
    assert [c][..0] == [];
    assert ChunkTexts([c]) == [] + [c.text];
    ConcatExtend([], c.text);
  }

  lemma StartsSnoc(front: seq<Chunk>, c: Chunk)
    ensures Starts(front + [c]) == Starts(front) + if StartsMessage(front + [c], |front|) then [|front|] else []
  {
    assert (front + [c])[..|front|] == front;
  }

  lemma SliceSnoc(front: seq<Chunk>, c: Chunk, i: nat, j: nat)
    requires i <= j <= |front|
    ensures (front + [c])[i..j] == front[i..j]
    ensures (front + [c])[i..|front| + 1] == front[i..] + [c]
  {
  }

  /** A message that had started keeps its texts, and gains one if it is still the last. */
  lemma EarlierMessage(front: seq<Chunk>, c: Chunk, m: nat)
    requires m < |Starts(front)| && HoldsTexts(front, m)
    ensures m < |Starts(front + [c])| && HoldsTexts(front + [c], m)
  {
    StartsSnoc(front, c);
    if m + 1 == |Starts(front)| && !StartsMessage(front + [c], |front|) {
      LastGrows(front, c);
    } else {
      MessagesSnoc(front, c);
      SliceSnoc(front, c, Starts(front)[m], End(Starts(front), m, |front|));
    }
  }

  lemma LastGrows(front: seq<Chunk>, c: Chunk)
    requires Starts(front) != [] && HoldsTexts(front, |Starts(front)| - 1) && !StartsMessage(front + [c], |front|)
    ensures Starts(front + [c]) == Starts(front) && HoldsTexts(front + [c], |Starts(front)| - 1)
  {
    var m := |Starts(front)| - 1;
    var from, ms := Starts(front)[m], Messages(front);
    StartsSnoc(front, c);
    MessagesSnoc(front, c);
    assert Messages(front + [c]) == ms[m := ms[m] + c.text];
    LastTexts(front, c, from);
  }

  lemma LastTexts(front: seq<Chunk>, c: Chunk, from: nat)
    requires from <= |front|
    ensures Concat(ChunkTexts((front + [c])[from..|front| + 1])) == Concat(ChunkTexts(front[from..|front|])) + c.text
  {
    SliceSnoc(front, c, from, |front|);
    assert front[from..|front|] == front[from..];
    ChunkTextsSnoc(front[from..], c);
  }

  ghost predicate Reflects(r: PromptResult, cs: seq<Chunk>) {
    && r.closing == Messages(cs) && (cs == [] <==> r.closing == [])
    && (cs != [] ==> r.closingMessageId == cs[|cs| - 1].id)
  }

  lemma ChunkJoins(r: PromptResult, cs: seq<Chunk>, c: Chunk)
    requires Reflects(r, cs)
    ensures Reflects(AppendClosing(r, c.text, c.id), cs + [c])
  {
    MessagesSnoc(cs, c);
  }

  lemma OtherKeepsClosing(r: PromptResult, u: Update)
    requires !u.AgentText? && !Resets(u)
    ensures Absorb(r, u).closing == r.closing && Absorb(r, u).closingMessageId == r.closingMessageId
  {
  }

  /** Without a reset, folding builds the messages of the chunks one by one. */
  lemma {:induction false} ClosingIsMessages(us: seq<Update>)
    requires forall i :: 0 <= i < |us| ==> !Resets(us[i])
    ensures Reflects(Fold(EMPTY, us), Chunks(us))
  {
    if us != [] {
      var front, u := us[..|us| - 1], us[|us| - 1];
      ClosingIsMessages(front);
      var r := Fold(EMPTY, front);
      if u.AgentText? {
        ChunkJoins(r.(chunks := r.chunks + [u.text]), Chunks(front), Chunk(u.text, u.messageId));
      } else {
        assert !Resets(us[|us| - 1]);
        OtherKeepsClosing(r, u);
        assert Chunks(us) == Chunks(front);
      }
    }
  }

  lemma MessagesSnoc(cs: seq<Chunk>, c: Chunk)
    ensures var front := Messages(cs);
      Messages(cs + [c]) == if StartsMessage(cs + [c], |cs|) || front == [] then front + [c.text]
                            else front[|front| - 1 := front[|front| - 1] + c.text]
  {
    assert (cs + [c])[..|cs|] == cs;
  }

  /** FinalMessage: one line per message. */
  function FinalMessage(r: PromptResult): string {
    Join(r.closing)
  }

  function Join(ss: seq<string>): string {
    if ss == [] then "" else if |ss| == 1 then ss[0]
    else Join(ss[..|ss| - 1]) + "\n" + ss[|ss| - 1]
  }

  /** One line break between two pieces, and none around them. */
  lemma {:induction false} JoinConcat(a: seq<string>, b: seq<string>)
    ensures Join([]) == ""
    ensures a == [] ==> Join(a + b) == Join(b)
    ensures b == [] ==> Join(a + b) == Join(a)
    ensures a != [] && b != [] ==> Join(a + b) == Join(a) + "\n" + Join(b)
    ensures |a| == 1 ==> Join(a) == a[0]
    decreases |b|
  {
    if a == [] {
      assert a + b == b;
    } else if b == [] {
      assert a + b == a;
    } else {
      var n := |b| - 1;
      JoinConcat(a, b[..n]);
      assert (a + b)[..|a + b| - 1] == a + b[..n];
    }
  }

  /**
   The final message is made of the chunks after the last reset, with a line break exactly where
   a new message id appears, whatever id was left behind.
   */
  lemma FinalMessageSplits(us: seq<Update>, staleId: string)
    ensures FinalMessage(Fold(EMPTY.(closingMessageId := staleId), us)) == Join(Messages(Chunks(Tail(us))))
  {
    TailIsSuffix(us);
    ClosingFromTail(EMPTY.(closingMessageId := staleId), EMPTY, us);
    var t := Tail(us);
    assert forall i :: 0 <= i < |t| ==> t[i] in t;
    ClosingIsMessages(t);
  }

  // ---------------------------------------------------------------- SendPrompt's loop

  /** The reported cost passes the limit after some notification handled while the turn is live. */
  ghost predicate LimitHit(live: seq<Update>, limit: real) {
    limit > 0.0 && exists k :: 0 < k <= |live| && CostAfter(live, k) >= limit
  }

  /** The last cost reported among the first k notifications. */
  function CostAfter(live: seq<Update>, k: nat): real
    requires k <= |live|
  {
    LastCost(live[..k])
  }

  lemma AbsorbIgnoresLimitFlag(r: PromptResult, u: Update, flag: bool)
    ensures Absorb(r.(costLimitReached := flag), u) == Absorb(r, u).(costLimitReached := flag)
  {
  }

  class Collector {
    var result: PromptResult
    var cancels: nat           // session/cancel notifications attempted

    constructor ()
      ensures result == EMPTY && cancels == 0
    {
      result, cancels := EMPTY, 0;
    }

    method Process(u: Update)
      modifies this`result
      ensures result == Absorb(old(result), u)
    {
      if u.ToolCall? {
        result := result.(turnsUsed := result.turnsUsed + 1);
      }
      match u {
        case AgentText(text, id) =>
          result := result.(chunks := result.chunks + [text]);
          var n := |result.closing|;
          if n > 0 && (id == "" || id == result.closingMessageId) {
            result := result.(closing := result.closing[n - 1 := result.closing[n - 1] + text]);
          } else {
            result := result.(closing := result.closing + [text]);
          }
          result := result.(closingMessageId := id);
        case UserChunk | ToolCall =>
          result := result.(closing := []);
        case Usage(cost, used, size, contextLimit) =>
          if cost.Some? { result := result.(cost := cost.value); }
          var s := size;
          if s == 0 { s := contextLimit; }
          if s > 0 { result := result.(contextUsed := used, contextSize := s); }
        case Notice(message) =>
          if message != "" { result := result.(notices := result.notices + [message]); }
        case Other =>
      }
    }

    /**
     The turn: `live` are the notifications taken off the sink while waiting, `drained` the
     ones still buffered when the response was taken.  Only live ones may trigger the
     harness's own session/cancel.
     */
    method Collect(live: seq<Update>, drained: seq<Update>, costLimit: real)
      requires result == EMPTY && cancels == 0
      modifies this
      ensures result == Fold(EMPTY, live + drained).(costLimitReached := LimitHit(live, costLimit))
      ensures cancels == if result.costLimitReached then 1 else 0
    {
      TakeLive(live, costLimit);
      Drain(live, drained);
    }

    method TakeLive(live: seq<Update>, costLimit: real)
      requires result == EMPTY && cancels == 0
      modifies this
      ensures result == Fold(EMPTY, live).(costLimitReached := LimitHit(live, costLimit))
      ensures cancels == if result.costLimitReached then 1 else 0
    {
      var cancelSent := false;
      for i := 0 to |live|
        invariant result == Fold(EMPTY, live[..i]).(costLimitReached := cancelSent)
        invariant cancelSent == LimitHit(live[..i], costLimit)
        invariant cancels == if cancelSent then 1 else 0
      {
        ghost var before := live[..i];
        assert live[..i + 1] == before + [live[i]];
        FoldOne(before, live[i], cancelSent);
        LimitHitSnoc(before, live[i], costLimit);
        Process(live[i]);
        if costLimit > 0.0 && !cancelSent && result.cost >= costLimit {
          cancelSent := true;
          result := result.(costLimitReached := true);
          cancels := cancels + 1;
        }
      }
      assert live[..|live|] == live;
    }

    /** drainNotifications: what is still buffered is folded in, but triggers nothing. */
    method Drain(ghost live: seq<Update>, drained: seq<Update>)
      requires result == Fold(EMPTY, live).(costLimitReached := result.costLimitReached)
      modifies this`result
      ensures result == Fold(EMPTY, live + drained).(costLimitReached := old(result.costLimitReached))
    {
      assert live + drained[..0] == live;
      for i := 0 to |drained|
        invariant result == Fold(EMPTY, live + drained[..i]).(costLimitReached := old(result.costLimitReached))
      {
        ghost var before := live + drained[..i];
        assert live + drained[..i + 1] == before + [drained[i]];
        FoldOne(before, drained[i], result.costLimitReached);
        Process(drained[i]);
      }
      assert drained[..|drained|] == drained;
    }
  }

  lemma FoldOne(us: seq<Update>, u: Update, flag: bool)
    ensures Absorb(Fold(EMPTY, us).(costLimitReached := flag), u) == Fold(EMPTY, us + [u]).(costLimitReached := flag)
  {
    FoldSnoc(EMPTY, us, u);
    AbsorbIgnoresLimitFlag(Fold(EMPTY, us), u, flag);
  }

  lemma LimitHitSnoc(live: seq<Update>, u: Update, limit: real)
    ensures LimitHit(live + [u], limit) <==>
      LimitHit(live, limit) || (limit > 0.0 && Fold(EMPTY, live + [u]).cost >= limit)
  {
    FoldUsage(live + [u]);
    var all, n := live + [u], |live|;
    assert all[..n + 1] == all;
    forall k | 0 < k <= n ensures CostAfter(all, k) == CostAfter(live, k) {
      assert all[..k] == live[..k];
    }
    if LimitHit(live, limit) {
      var k :| 0 < k <= n && CostAfter(live, k) >= limit;
      assert CostAfter(all, k) >= limit;
    }
    assert CostAfter(all, n + 1) == LastCost(all);
  }
}
