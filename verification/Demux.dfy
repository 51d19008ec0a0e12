/**
 One socket, many callers (harness/internal/acp/wsclient.go, and SendPrompt's waiting loop in
 session.go).  A single read loop classifies each inbound JSON-RPC frame and routes it; the
 callers wait on their own response channel and notification sink.

 `WSClient` holds the routing tables under its mutex.  The machine below interleaves the read
 loop with any number of callers, one lock section or channel operation per step, and moves the
 tables exactly as `WSClient` does.
 */
module Demux {
  import opened Common

  /** A frame's id member, as far as routing looks at it. */
  datatype RawId = NoId | NullId | Numeric(n: int) | Text(s: string)

  /** `call` is the method member, empty when absent. */
  datatype Frame = Frame(id: RawId, call: string, payload: string)

  predicate HasId(f: Frame) {
    !f.id.NoId? && !f.id.NullId?
  }

  predicate IsNotification(f: Frame) {
    !HasId(f) && f.call != ""
  }

  predicate IsAgentRequest(f: Frame) {
    HasId(f) && f.call != ""
  }

  predicate IsResponseTo(f: Frame, id: int) {
    f.id == Numeric(id) && f.call == ""
  }

  /** Every frame has exactly one destination: the sinks, the request handler, one caller, or nowhere. */
  lemma ClassesAreDisjoint(f: Frame, a: int, b: int)
    ensures !(IsNotification(f) && IsAgentRequest(f))
    ensures IsResponseTo(f, a) ==> !IsNotification(f) && !IsAgentRequest(f)
    ensures IsResponseTo(f, a) && IsResponseTo(f, b) ==> a == b
  {
  }

  /** ... and which one it is, by its id and method: a null id counts as none. */
  lemma FrameTable(f: Frame)
    ensures IsNotification(f) <==> f.call != "" && f.id in {NoId, NullId}
    ensures IsAgentRequest(f) <==> f.call != "" && f.id !in {NoId, NullId}
    ensures forall id :: IsResponseTo(f, id) <==> f.call == "" && f.id == Numeric(id)
  {
  }

  const SINK_CAP := 256

  /** A non-blocking send on a buffered channel: a full sink drops the frame. */
  function Offer<T>(queue: seq<T>, f: T, cap: nat): (r: seq<T>)
    ensures queue <= r && |r| <= |queue| + 1
    ensures r == queue <==> |queue| >= cap
    ensures r != queue ==> r == queue + [f] && |r| <= cap
  {
    if |queue| < cap then queue + [f] else queue
  }

  // ---------------------------------------------------------------- the routing tables

  /** What the client's mutex protects, and the channels behind it. */
  datatype Tables = Tables(
    pending: set<int>,
    inbox: map<int, seq<Frame>>,       // response channels, capacity 1
    sinks: map<int, seq<Frame>>)

  function WithPending(t: Tables, id: int): Tables {
    t.(pending := t.pending + {id}, inbox := t.inbox[id := []])
  }

  function WithoutPending(t: Tables, id: int): Tables {
    t.(pending := t.pending - {id})
  }

  function WithSink(t: Tables, k: int): Tables {
    t.(sinks := t.sinks[k := []])
  }

  function WithoutSink(t: Tables, k: int): Tables {
    t.(sinks := t.sinks - {k})
  }

  function FannedOut(t: Tables, f: Frame): Tables {
    t.(sinks := map k | k in t.sinks :: Offer(t.sinks[k], f, SINK_CAP))
  }

  /** The caller a response is for. */
  function Target(t: Tables, f: Frame): Option<int> {
    if f.id.Numeric? && f.id.n in t.pending then Some(f.id.n) else None
  }

  /** The lock section of a response: from now on nobody else can get it. */
  function Taken(t: Tables, f: Frame): Tables {
    if Target(t, f).Some? then WithoutPending(t, f.id.n) else t
  }

  function Sent(t: Tables, id: int, f: Frame): Tables
    requires id in t.inbox
  {
    t.(inbox := t.inbox[id := t.inbox[id] + [f]])
  }

  /** The tables once a frame has been classified and its lock section run. */
  function Dispatched(t: Tables, f: Frame): Tables {
    if IsNotification(f) then FannedOut(t, f) else if HasId(f) && !IsAgentRequest(f) then Taken(t, f) else t
  }

  datatype Raw = Raw(seqNo: nat, frame: Frame)

  class WSClient {
    var pending: set<int>
    var inbox: map<int, seq<Frame>>
    var notifSinks: map<nat, seq<Frame>>
    var rawSubs: map<nat, seq<Raw>>
    var rawCap: map<nat, nat>
    var nextSubId: nat
    var seqNo: nat

    ghost predicate Valid()
      reads this
    {
      && pending <= inbox.Keys
      && (forall id :: id in pending ==> inbox[id] == [])
      && rawSubs.Keys == rawCap.Keys
      && (forall k :: k in notifSinks || k in rawSubs ==> k <= nextSubId)
    }

    ghost function View(): Tables
      reads this
    {
      Tables(pending, inbox, notifSinks)
    }

    constructor ()
      ensures Valid() && View() == Tables({}, map[], map[]) && rawSubs == map[]
    {
      pending, inbox, notifSinks, rawSubs, rawCap := {}, map[], map[], map[], map[];
      nextSubId, seqNo := 0, 0;
    }

    method RegisterPending(id: int)
      requires Valid() && id !in inbox
      modifies this`pending, this`inbox
      ensures Valid() && View() == WithPending(old(View()), id)
    {
      inbox := inbox[id := []];
      pending := pending + {id};
    }

    method UnregisterPending(id: int)
      requires Valid()
      modifies this`pending
      ensures Valid() && View() == WithoutPending(old(View()), id)
    {
      pending := pending - {id};
    }

    method AddNotifSink() returns (id: nat)
      requires Valid()
      modifies this`nextSubId, this`notifSinks
      ensures Valid() && id !in old(notifSinks) && id !in rawSubs
      ensures View() == WithSink(old(View()), id)
    {
      nextSubId := nextSubId + 1;
      id := nextSubId;
      notifSinks := notifSinks[id := []];
    }

    method RemoveNotifSink(id: nat)
      requires Valid()
      modifies this`notifSinks
      ensures Valid() && View() == WithoutSink(old(View()), id)
    {
      notifSinks := notifSinks - {id};
    }

    method Subscribe(buffer: nat) returns (id: nat)
      requires Valid()
      modifies this`nextSubId, this`rawSubs, this`rawCap
      ensures Valid() && id !in old(rawSubs) && id !in notifSinks
      ensures rawSubs == old(rawSubs)[id := []] && rawCap == old(rawCap)[id := buffer]
    {
      nextSubId := nextSubId + 1;
      id := nextSubId;
      rawSubs := rawSubs[id := []];
      rawCap := rawCap[id := buffer];
    }

    /** Every sink and every raw subscriber is offered the frame; the run never blocks on one. */
    method FanOutNotification(f: Frame)
      requires Valid()
      modifies this`seqNo, this`notifSinks, this`rawSubs
      ensures Valid() && seqNo == old(seqNo) + 1
      ensures View() == FannedOut(old(View()), f)
      ensures rawSubs == map k | k in old(rawSubs) :: Offer(old(rawSubs)[k], Raw(seqNo, f), rawCap[k])
    {
      seqNo := seqNo + 1;
      OfferToSinks(f);
      OfferToSubscribers(Raw(seqNo, f));
    }

    method OfferToSinks(f: Frame)
      requires Valid()
      modifies this`notifSinks
      ensures Valid()
      ensures notifSinks == map k | k in old(notifSinks) :: Offer(old(notifSinks)[k], f, SINK_CAP)
    {
      var todo := notifSinks.Keys;
      while todo != {}
        invariant todo <= notifSinks.Keys == old(notifSinks).Keys
        invariant forall k :: k in todo ==> notifSinks[k] == old(notifSinks)[k]
        invariant forall k :: k in notifSinks.Keys - todo ==> notifSinks[k] == Offer(old(notifSinks)[k], f, SINK_CAP)
        decreases todo
      {
        var k :| k in todo;
        if |notifSinks[k]| < SINK_CAP {
          notifSinks := notifSinks[k := notifSinks[k] + [f]];
        }
        todo := todo - {k};
      }
    }

    method OfferToSubscribers(raw: Raw)
      requires Valid()
      modifies this`rawSubs
      ensures Valid()
      ensures rawSubs == map k | k in old(rawSubs) :: Offer(old(rawSubs)[k], raw, rawCap[k])
    {
      var todo := rawSubs.Keys;
      while todo != {}
        invariant todo <= rawSubs.Keys == old(rawSubs).Keys == rawCap.Keys
        invariant forall k :: k in todo ==> rawSubs[k] == old(rawSubs)[k]
        invariant forall k :: k in rawSubs.Keys - todo ==> rawSubs[k] == Offer(old(rawSubs)[k], raw, rawCap[k])
        decreases todo
      {
        var k :| k in todo;
        if |rawSubs[k]| < rawCap[k] {
          rawSubs := rawSubs[k := rawSubs[k] + [raw]];
        }
        todo := todo - {k};
      }
    }

    /** routeResponse's lock section: find the caller and remove it. */
    method TakePending(f: Frame) returns (target: Option<int>)
      requires Valid()
      modifies this`pending
      ensures Valid() && target == Target(old(View()), f) && View() == Taken(old(View()), f)
    {
      if !f.id.Numeric? { return None; }
      if f.id.n !in pending { return None; }
      pending := pending - {f.id.n};
      return Some(f.id.n);
    }

    /** The removal and the send: only the caller registered under the id hears of it, and only once. */
    method RouteResponse(f: Frame)
      requires Valid()
      modifies this`pending, this`inbox
      ensures Valid()
      ensures Target(old(View()), f).None? ==> View() == old(View())
      ensures Target(old(View()), f).Some? ==>
        View() == Sent(Taken(old(View()), f), f.id.n, f) && inbox[f.id.n] == [f]
    {
      var target := TakePending(f);
      if target.Some? {
        inbox := inbox[target.value := inbox[target.value] + [f]];
      }
    }

    /** One turn of readLoop: a frame goes to the sinks, to the request handler, or to one caller. */
    method DispatchFrame(f: Frame)
      requires Valid()
      modifies this`pending, this`inbox, this`seqNo, this`notifSinks, this`rawSubs
      ensures Valid()
      ensures var t := Dispatched(old(View()), f);
        View() == if IsNotification(f) || IsAgentRequest(f) || Target(old(View()), f).None? then t else Sent(t, f.id.n, f)
    {
      if IsNotification(f) {
        FanOutNotification(f);
      } else if !IsAgentRequest(f) && HasId(f) {
        RouteResponse(f);
      }
    }
  }

  // ---------------------------------------------------------------- readers and callers

  datatype Outcome = Response(frame: Frame) | ConnectionLost | ContextDone | SendFailed

  datatype Progress =
    | Registered                       // response channel reserved
    | Waiting                          // sink added, request on its way: in the select
    | SawDone                          // the connection is gone; about to check the response channel
    | Draining(outcome: Outcome)       // emptying the sink before returning
    | Returned(outcome: Outcome)

  /** A Call or a SendPrompt; the two differ in draining once more when the connection is lost. */
  datatype Caller = Caller(
    prompt: bool,
    from: nat,                         // frames read when its id was registered
    sinkFrom: nat,                     // frames read when its sink was added
    at: Progress,
    inbox: seq<Frame>,
    queue: seq<Frame>,                 // its sink
    overflowed: bool,                  // the sink dropped a frame while it was waiting
    consumed: seq<Frame>,
    answer: Option<nat>)               // where its response was read

  datatype State = State(
    read: seq<Frame>,                  // every frame the read loop took off the socket
    closed: bool,                      // ... and it has exited
    routing: Option<int>,              // id removed from pending, response not yet sent
    pending: set<int>,
    sinks: set<int>,
    callers: map<int, Caller>,
    lastId: int)

  const INITIAL := State([], false, None, {}, {}, map[], 0)

  datatype Step =
    | Register(prompt: bool)
    | AddSink(id: int)
    | FailSend(id: int)
    | Read(f: Frame)
    | Deliver
    | Close
    | TakeNotification(id: int)
    | TakeResponse(id: int)
    | NoticeClose(id: int)
    | CheckResponse(id: int)
    | NoticeContext(id: int)
    | DrainOne(id: int)
    | DrainEnd(id: int)
    | RemoveSink(id: int)
    | Unregister(id: int)

  predicate In(s: State, id: int, at: Progress) {
    id in s.callers && s.callers[id].at == at
  }

  predicate Enabled(s: State, t: Step) {
    match t
    case Register(_) => true
    case AddSink(id) => In(s, id, Registered)
    case FailSend(id) => In(s, id, Waiting)
    case Read(_) => !s.closed && s.routing.None?
    case Deliver => s.routing.Some? && s.routing.value in s.callers && s.callers[s.routing.value].answer.Some?
                    && s.callers[s.routing.value].answer.value < |s.read|
    case Close => !s.closed && s.routing.None?
    case TakeNotification(id) => In(s, id, Waiting) && s.callers[id].queue != []
    case TakeResponse(id) => In(s, id, Waiting) && s.callers[id].inbox != []
    case NoticeClose(id) => In(s, id, Waiting) && s.closed
    case CheckResponse(id) => In(s, id, SawDone)
    case NoticeContext(id) => In(s, id, Waiting)
    case DrainOne(id) => id in s.callers && s.callers[id].at.Draining? && s.callers[id].queue != []
    case DrainEnd(id) => id in s.callers && s.callers[id].at.Draining? && s.callers[id].queue == []
    case RemoveSink(id) => id in s.callers && s.callers[id].at.Returned?
    case Unregister(id) => id in s.callers && s.callers[id].at.Returned?
  }

  function Hear(c: Caller, f: Frame): Caller {
    c.(queue := Offer(c.queue, f, SINK_CAP),
       overflowed := c.overflowed || (|c.queue| >= SINK_CAP && !c.at.Returned?))
  }

  function With(s: State, id: int, c: Caller): State {
    s.(callers := s.callers[id := c])
  }

  function TakeInbox(c: Caller): Caller
    requires c.inbox != []
  {
    c.(inbox := c.inbox[1..], at := Draining(Response(c.inbox[0])))
  }

  function TakeQueue(c: Caller): Caller
    requires c.queue != []
  {
    c.(queue := c.queue[1..], consumed := c.consumed + [c.queue[0]])
  }

  function Next(s: State, t: Step): State
    requires Enabled(s, t)
  {
    match t
    case Register(prompt) =>
      var id := s.lastId + 1;
      With(s, id, Caller(prompt, |s.read|, |s.read|, Registered, [], [], false, [], None))
        .(pending := s.pending + {id}, lastId := id)
    case AddSink(id) =>
      With(s, id, s.callers[id].(sinkFrom := |s.read|, at := Waiting)).(sinks := s.sinks + {id})
    case FailSend(id) => With(s, id, s.callers[id].(at := Returned(SendFailed)))
    case Read(f) =>
      var s := s.(read := s.read + [f]);
      if IsNotification(f) then
        s.(callers := map id | id in s.callers :: if id in s.sinks then Hear(s.callers[id], f) else s.callers[id])
      else if !IsAgentRequest(f) && f.id.Numeric? && f.id.n in s.pending && f.id.n in s.callers then
        With(s, f.id.n, s.callers[f.id.n].(answer := Some(|s.read| - 1)))
          .(pending := s.pending - {f.id.n}, routing := Some(f.id.n))
      else s
    case Deliver =>
      var c := s.callers[s.routing.value];
      With(s, s.routing.value, c.(inbox := c.inbox + [s.read[c.answer.value]])).(routing := None)
    case Close => s.(closed := true)
    case TakeNotification(id) => With(s, id, TakeQueue(s.callers[id]))
    case TakeResponse(id) => With(s, id, TakeInbox(s.callers[id]))
    case NoticeClose(id) => With(s, id, s.callers[id].(at := SawDone))
    case CheckResponse(id) =>
      var c := s.callers[id];
      With(s, id,
        if c.inbox != [] then TakeInbox(c)
        else c.(at := if c.prompt then Draining(ConnectionLost) else Returned(ConnectionLost)))
    case NoticeContext(id) => With(s, id, s.callers[id].(at := Returned(ContextDone)))
    case DrainOne(id) => With(s, id, TakeQueue(s.callers[id]))
    case DrainEnd(id) => With(s, id, s.callers[id].(at := Returned(s.callers[id].at.outcome)))
    case RemoveSink(id) => s.(sinks := s.sinks - {id})
    case Unregister(id) => s.(pending := s.pending - {id})
  }

  predicate Legal(s: State, ts: seq<Step>)
    decreases |ts|
  {
    ts == [] || (Enabled(s, ts[0]) && Legal(Next(s, ts[0]), ts[1..]))
  }

  function After(s: State, ts: seq<Step>): State
    requires Legal(s, ts)
    decreases |ts|
  {
    if ts == [] then s else After(Next(s, ts[0]), ts[1..])
  }

  // ---------------------------------------------------------------- the invariant

  function Notifications(fs: seq<Frame>): seq<Frame> {
    if fs == [] then []
    else Notifications(fs[..|fs| - 1]) + if IsNotification(fs[|fs| - 1]) then [fs[|fs| - 1]] else []
  }

  lemma NotificationsSnoc(fs: seq<Frame>, f: Frame)
    ensures Notifications(fs + [f]) == Notifications(fs) + if IsNotification(f) then [f] else []
  {
    assert (fs + [f])[..|fs|] == fs;
  }

  lemma {:induction false} NotificationsPrefix(fs: seq<Frame>, n: nat)
    requires n <= |fs|
    ensures Notifications(fs[..n]) <= Notifications(fs)
    decreases |fs|
  {
    if n < |fs| {
      NotificationsPrefix(fs[..|fs| - 1], n);
      assert fs[..|fs| - 1][..n] == fs[..n];
    } else {
      assert fs[..n] == fs;
    }
  }

  /** No response to this id among the frames read since `from`. */
  predicate Unanswered(read: seq<Frame>, from: nat, id: int) {
    forall p :: from <= p < |read| ==> !IsResponseTo(read[p], id)
  }

  /** The first response to this id since registration was read at `p`. */
  predicate AnsweredAt(read: seq<Frame>, from: nat, id: int, p: nat) {
    from <= p < |read| && IsResponseTo(read[p], id) && Unanswered(read[..p], from, id)
  }

  /** Exactly one of: still pending; being routed; in the inbox; taken by its caller. */
  predicate ResponseSound(read: seq<Frame>, c: Caller, id: int, pending: bool, routing: bool) {
    && (pending ==> c.answer.None? && Unanswered(read, c.from, id))
    && (c.answer.None? ==> !routing && c.inbox == [])
    && (c.answer.Some? ==> AnsweredAt(read, c.from, id, c.answer.value))
    && match c.at
       case Draining(o) => OutcomeSound(read, c, id, o, routing)
       case Returned(o) => OutcomeSound(read, c, id, o, routing)
       case _ =>
         && (pending || c.answer.Some?)
         && (c.answer.Some? ==> c.inbox == if routing then [] else [read[c.answer.value]])
  }

  predicate OutcomeSound(read: seq<Frame>, c: Caller, id: int, o: Outcome, routing: bool) {
    match o
    case Response(f) => c.answer.Some? && c.answer.value < |read| && f == read[c.answer.value] && !routing && c.inbox == []
    case ConnectionLost => c.answer.None? && Unanswered(read, c.from, id)
    case _ => c.answer.Some? ==> c.answer.value < |read| && c.inbox == if routing then [] else [read[c.answer.value]]
  }

  /** Absent overflow, the sink and what was taken from it are exactly the notifications since it was added. */
  predicate SinkSound(read: seq<Frame>, c: Caller) {
    && c.from <= c.sinkFrom <= |read|
    && match c.at
       case Registered => c.queue == [] && c.consumed == [] && !c.overflowed
       case Returned(o) =>
         !c.overflowed ==>
           && c.consumed <= Notifications(read[c.sinkFrom..])
           && (o.Response? && c.answer.Some? && c.sinkFrom <= c.answer.value <= |read| ==>
                 Notifications(read[c.sinkFrom..c.answer.value]) <= c.consumed)
           && (o.ConnectionLost? && c.prompt ==> c.consumed == Notifications(read[c.sinkFrom..]))
       case _ => !c.overflowed ==> c.consumed + c.queue == Notifications(read[c.sinkFrom..])
  }

  predicate CallerSound(s: State, id: int)
    requires id in s.callers
  {
    var c := s.callers[id];
    && id <= s.lastId
    && (!c.at.Registered? && !c.at.Returned? ==> id in s.sinks)
    && (c.at.Registered? ==> id !in s.sinks)
    && (c.at.SawDone? ==> s.closed)
    && ((c.at.Draining? || c.at.Returned?) && c.at.outcome.ConnectionLost? ==> s.closed)
    && (c.at.Draining? ==> c.at.outcome.Response? || (c.at.outcome.ConnectionLost? && c.prompt))
    && ResponseSound(s.read, c, id, id in s.pending, s.routing == Some(id))
    && SinkSound(s.read, c)
  }

  ghost predicate Inv(s: State) {
    && s.pending <= s.callers.Keys && s.sinks <= s.callers.Keys
    && (s.routing.Some? ==> s.routing.value in s.callers && !s.closed && s.callers[s.routing.value].answer.Some?)
    && (forall id :: id in s.callers ==> CallerSound(s, id))
  }

  // ---------------------------------------------------------------- every interleaving keeps it

  lemma ReadKeepsSink(read: seq<Frame>, c: Caller, f: Frame, registered: bool)
    requires SinkSound(read, c)
    requires !c.at.Registered? && !c.at.Returned? ==> registered
    requires c.at.Registered? ==> !registered
    requires !(c.at.Returned? && c.at.outcome.ConnectionLost?)
    requires c.answer.Some? ==> c.answer.value < |read|
    ensures SinkSound(read + [f], if IsNotification(f) && registered then Hear(c, f) else c)
  {
    var read' := read + [f];
    assert read'[c.sinkFrom..] == read[c.sinkFrom..] + [f];
    NotificationsSnoc(read[c.sinkFrom..], f);
    if c.answer.Some? && c.sinkFrom <= c.answer.value {
      assert read'[c.sinkFrom..c.answer.value] == read[c.sinkFrom..c.answer.value];
    }
  }

  /** A frame that is not routed to a caller leaves its response where it is. */
  lemma OtherFrame(read: seq<Frame>, c: Caller, c': Caller, id: int, pending: bool, routing: bool, f: Frame)
    requires ResponseSound(read, c, id, pending, routing)
    requires c'.answer == c.answer && c'.inbox == c.inbox && c'.at == c.at && c'.from == c.from
    requires pending || ((c.at.Draining? || c.at.Returned?) && c.at.outcome.ConnectionLost?) ==> !IsResponseTo(f, id)
    ensures ResponseSound(read + [f], c', id, pending, routing)
  {
    var read' := read + [f];
    assert forall p :: 0 <= p < |read| ==> read'[p] == read[p];
    if c.answer.Some? {
      assert read'[..c.answer.value] == read[..c.answer.value];
    }
  }

  /** The frame a pending caller waits for is the first response to its id. */
  lemma RoutedFrame(read: seq<Frame>, c: Caller, id: int, f: Frame)
    requires ResponseSound(read, c, id, true, false) && c.from <= |read| && IsResponseTo(f, id)
    requires !(c.at.Draining? && c.at.outcome.ConnectionLost?) && !(c.at.Returned? && c.at.outcome.ConnectionLost?)
    ensures ResponseSound(read + [f], c.(answer := Some(|read|)), id, false, true)
  {
    assert (read + [f])[..|read|] == read;
  }

  lemma ReadKeepsResponse(s: State, f: Frame, id: int)
    requires Inv(s) && Enabled(s, Read(f)) && id in s.callers
    ensures var s' := Next(s, Read(f));
      ResponseSound(s'.read, s'.callers[id], id, id in s'.pending, s'.routing == Some(id))
  {
    var s', c := Next(s, Read(f)), s.callers[id];
    assert CallerSound(s, id);
    if IsResponseTo(f, id) && id in s.pending {
      RoutedFrame(s.read, c, id, f);
    } else {
      OtherFrame(s.read, c, s'.callers[id], id, id in s.pending, s.routing == Some(id), f);
    }
  }

  lemma ReadKeepsInv(s: State, f: Frame)
    requires Inv(s) && Enabled(s, Read(f))
    ensures Inv(Next(s, Read(f)))
  {
    var s' := Next(s, Read(f));
    forall id | id in s'.callers ensures CallerSound(s', id) {
      assert CallerSound(s, id);
      ReadKeepsResponse(s, f, id);
      ReadKeepsSink(s.read, s.callers[id], f, id in s.sinks);
    }
  }

  lemma DrainEndKeepsSink(read: seq<Frame>, c: Caller)
    requires SinkSound(read, c) && c.at.Draining? && c.queue == []
    requires c.answer.Some? ==> c.answer.value < |read|
    ensures SinkSound(read, c.(at := Returned(c.at.outcome)))
  {
    assert c.consumed + c.queue == c.consumed;
    if c.answer.Some? && c.sinkFrom <= c.answer.value {
      NotificationsPrefix(read[c.sinkFrom..], c.answer.value - c.sinkFrom);
      assert read[c.sinkFrom..][..c.answer.value - c.sinkFrom] == read[c.sinkFrom..c.answer.value];
    }
  }

  lemma TakeKeepsSink(read: seq<Frame>, c: Caller)
    requires SinkSound(read, c) && (c.at.Waiting? || c.at.Draining?) && c.queue != []
    ensures SinkSound(read, TakeQueue(c))
  {
    assert c.consumed + c.queue == (c.consumed + [c.queue[0]]) + c.queue[1..];
  }

  function Subject(s: State, t: Step): int {
    match t
    case Register(_) => s.lastId + 1
    case Deliver => if s.routing.Some? then s.routing.value else 0
    case Read(_) => 0
    case Close => 0
    case _ => t.id
  }

  predicate TakesFromSink(t: Step) {
    t.TakeNotification? || t.DrainOne? || t.DrainEnd?
  }

  lemma SinkStepSound(s: State, t: Step)
    requires Enabled(s, t) && TakesFromSink(t) && t.id in s.callers && CallerSound(s, t.id)
    ensures t.id in Next(s, t).callers && CallerSound(Next(s, t), t.id)
  {
    var c := s.callers[t.id];
    if t.DrainEnd? { DrainEndKeepsSink(s.read, c); } else { TakeKeepsSink(s.read, c); }
  }

  lemma OpeningSound(s: State, t: Step)
    requires Inv(s) && Enabled(s, t) && (t.Register? || t.AddSink?)
    ensures var id := Subject(s, t); id in Next(s, t).callers && CallerSound(Next(s, t), id)
  {
    assert s.read[|s.read|..] == [];
    if t.Register? {
      assert forall i :: i in s.callers ==> CallerSound(s, i);
    } else {
      assert CallerSound(s, t.id);
    }
  }

  predicate MovesResponse(t: Step) {
    t.Deliver? || t.TakeResponse? || t.CheckResponse?
  }

  lemma ResponseStepSound(s: State, t: Step)
    requires Inv(s) && Enabled(s, t) && MovesResponse(t) && Subject(s, t) in s.callers && CallerSound(s, Subject(s, t))
    ensures var id := Subject(s, t); id in Next(s, t).callers && CallerSound(Next(s, t), id)
  {
  }

  lemma SubjectSound(s: State, t: Step)
    requires Inv(s) && Enabled(s, t) && !t.Read? && !t.Close?
    ensures var id := Subject(s, t); id in Next(s, t).callers && CallerSound(Next(s, t), id)
  {
    if t.Register? || t.AddSink? {
      OpeningSound(s, t);
    } else {
      assert CallerSound(s, Subject(s, t));
      if TakesFromSink(t) { SinkStepSound(s, t); }
      else if MovesResponse(t) { ResponseStepSound(s, t); }
      else { LeavingSound(s, t); }
    }
  }

  /** Noticing the end, giving up, and cleaning up after itself. */
  lemma LeavingSound(s: State, t: Step)
    requires Enabled(s, t) && !t.Register? && !t.AddSink? && !t.Read? && !t.Close? && !TakesFromSink(t) && !MovesResponse(t)
    requires t.id in s.callers && CallerSound(s, t.id)
    ensures t.id in Next(s, t).callers && CallerSound(Next(s, t), t.id)
  {
  }

  /** A step is nothing to the other callers. */
  lemma OthersSound(s: State, t: Step, id: int)
    requires Inv(s) && Enabled(s, t) && !t.Read? && id in Next(s, t).callers && (t.Close? || id != Subject(s, t))
    ensures CallerSound(Next(s, t), id)
  {
    assert id in s.callers && CallerSound(s, id);
  }

  lemma StepKeepsInv(s: State, t: Step)
    requires Inv(s) && Enabled(s, t)
    ensures Inv(Next(s, t))
  {
    if t.Read? {
      ReadKeepsInv(s, t.f);
    } else {
      var s' := Next(s, t);
      if !t.Close? { SubjectSound(s, t); }
      forall id | id in s'.callers ensures CallerSound(s', id) {
        if t.Close? || id != Subject(s, t) { OthersSound(s, t, id); }
      }
      FrameKept(s, t);
    }
  }

  lemma FrameKept(s: State, t: Step)
    requires Inv(s) && Enabled(s, t) && !t.Read?
    ensures var s' := Next(s, t);
      && s'.pending <= s'.callers.Keys && s'.sinks <= s'.callers.Keys
      && (s'.routing.Some? ==> s'.routing.value in s'.callers && !s'.closed && s'.callers[s'.routing.value].answer.Some?)
  {
  }

  lemma {:induction false} RunKeepsInv(s: State, ts: seq<Step>)
    requires Inv(s) && Legal(s, ts)
    ensures Inv(After(s, ts))
    decreases |ts|
  {
    if ts != [] {
      StepKeepsInv(s, ts[0]);
      RunKeepsInv(Next(s, ts[0]), ts[1..]);
    }
  }

  // ---------------------------------------------------------------- the machine moves the tables as the client does

  /** The routing tables of a machine state; a caller's sink goes by the caller's id. */
  function TablesOf(s: State): Tables {
    Tables(s.pending,
           map id | id in s.callers :: s.callers[id].inbox,
           map id | id in s.sinks * s.callers.Keys :: s.callers[id].queue)
  }

  /** What `WSClient` does to the tables in this step. */
  function Moved(s: State, t: Step): Tables
    requires Enabled(s, t)
  {
    var before := TablesOf(s);
    match t
    case Register(_) => WithPending(before, s.lastId + 1)
    case Unregister(id) => WithoutPending(before, id)
    case AddSink(id) => WithSink(before, id)
    case RemoveSink(id) => WithoutSink(before, id)
    case Read(f) => Dispatched(before, f)
    case Deliver => Sent(before, s.routing.value, RoutedFrameOf(s))
    case _ => before
  }

  /** Steps in which a caller receives from its own channel or sink. */
  predicate Receives(t: Step) {
    t.TakeNotification? || t.TakeResponse? || t.CheckResponse? || t.DrainOne?
  }

  /** Table by table, and entry by entry. */
  ghost predicate Tabulates(s: State, t: Tables) {
    && t.pending == s.pending && t.inbox.Keys == s.callers.Keys && t.sinks.Keys == s.sinks * s.callers.Keys
    && (forall id :: id in s.callers ==> t.inbox[id] == s.callers[id].inbox)
    && (forall id :: id in s.sinks * s.callers.Keys ==> t.sinks[id] == s.callers[id].queue)
  }

  lemma TabulatesAll(s: State, t: Tables)
    requires Tabulates(s, t)
    ensures TablesOf(s) == t
  {
    var m := TablesOf(s);
    assert m.inbox.Keys == t.inbox.Keys && m.sinks.Keys == t.sinks.Keys;
    assert forall id :: id in t.inbox ==> m.inbox[id] == t.inbox[id];
    assert forall id :: id in t.sinks ==> m.sinks[id] == t.sinks[id];
  }

  lemma ReadTabulates(s: State, f: Frame)
    requires Inv(s) && Enabled(s, Read(f))
    ensures Tabulates(Next(s, Read(f)), Dispatched(TablesOf(s), f))
  {
  }

  lemma OpeningTabulates(s: State, t: Step)
    requires Inv(s) && Enabled(s, t) && (t.Register? || t.AddSink?)
    ensures Tabulates(Next(s, t), Moved(s, t))
  {
    if t.AddSink? {
      assert CallerSound(s, t.id);
    } else {
      assert forall id :: id in s.callers ==> CallerSound(s, id);
    }
  }

  lemma OtherTabulates(s: State, t: Step)
    requires Inv(s) && Enabled(s, t) && !Receives(t) && !t.Read? && !t.Register? && !t.AddSink?
    ensures Tabulates(Next(s, t), Moved(s, t))
  {
    if t.Deliver? { DeliveryTabulates(s); }
    else if t.RemoveSink? || t.Unregister? { RemovalTabulates(s, t); }
  }

  lemma DeliveryTabulates(s: State)
    requires Inv(s) && Enabled(s, Deliver)
    ensures Tabulates(Next(s, Deliver), Moved(s, Deliver))
  {
  }

  lemma RemovalTabulates(s: State, t: Step)
    requires Inv(s) && Enabled(s, t) && (t.RemoveSink? || t.Unregister?)
    ensures Tabulates(Next(s, t), Moved(s, t))
  {
  }

  /** Every step but a caller's own receive moves the tables as `WSClient` does. */
  lemma StepMovesTables(s: State, t: Step)
    requires Inv(s) && Enabled(s, t) && !Receives(t)
    ensures TablesOf(Next(s, t)) == Moved(s, t)
  {
    if t.Read? {
      ReadTabulates(s, t.f);
    } else if t.Register? || t.AddSink? {
      OpeningTabulates(s, t);
    } else {
      OtherTabulates(s, t);
    }
    TabulatesAll(Next(s, t), Moved(s, t));
  }

  /** The response on its way to its caller's channel. */
  function RoutedFrameOf(s: State): Frame
    requires Enabled(s, Deliver)
  {
    s.read[s.callers[s.routing.value].answer.value]
  }

  /** The frame sent is the one that was taken: the two halves of `RouteResponse`. */
  lemma ReadThenDeliver(s: State, f: Frame)
    requires Inv(s) && Enabled(s, Read(f)) && Next(s, Read(f)).routing.Some?
    ensures Next(s, Read(f)).routing == Target(TablesOf(s), f)
    ensures Enabled(Next(s, Read(f)), Deliver) && RoutedFrameOf(Next(s, Read(f))) == f
    ensures TablesOf(Next(Next(s, Read(f)), Deliver)) == Sent(Taken(TablesOf(s), f), f.id.n, f)
  {
    var d := Next(s, Read(f));
    StepMovesTables(s, Read(f));
    StepKeepsInv(s, Read(f));
    StepMovesTables(d, Deliver);
    assert d.routing == Some(f.id.n) && TablesOf(d) == Taken(TablesOf(s), f);
  }

  // ---------------------------------------------------------------- what the callers get

  /**
   What a caller that returned a response has consumed: absent overflow, an in-order prefix of
   the notifications read since its sink was added, holding every one read before the
   response; and the response is the first frame answering its id since it was registered.
   */
  lemma ResponseCarriesItsNotifications(ts: seq<Step>, id: int)
    requires Legal(INITIAL, ts)
    requires id in After(INITIAL, ts).callers
    requires After(INITIAL, ts).callers[id].at.Returned? && After(INITIAL, ts).callers[id].at.outcome.Response?
    ensures var s := After(INITIAL, ts);
      var c := s.callers[id];
      exists p: nat :: AnsweredAt(s.read, c.from, id, p) && c.at.outcome.frame == s.read[p] &&
        c.sinkFrom <= |s.read| &&
        (!c.overflowed ==>
           && c.consumed <= Notifications(s.read[c.sinkFrom..])
           && (c.sinkFrom <= p ==> Notifications(s.read[c.sinkFrom..p]) <= c.consumed))
  {
    RunKeepsInv(INITIAL, ts);
    var s := After(INITIAL, ts);
    assert CallerSound(s, id);
    assert AnsweredAt(s.read, s.callers[id].from, id, s.callers[id].answer.value);
  }

  /**
   "Connection lost" means that no response to this id was ever read; SendPrompt still hands back
   everything streamed.
   */
  lemma LostMeansUnanswered(ts: seq<Step>, id: int)
    requires Legal(INITIAL, ts)
    requires id in After(INITIAL, ts).callers
    requires After(INITIAL, ts).callers[id].at == Returned(ConnectionLost)
    ensures var s := After(INITIAL, ts);
      var c := s.callers[id];
      && s.closed && c.sinkFrom <= |s.read| && Unanswered(s.read, c.from, id)
      && (c.prompt && !c.overflowed ==> c.consumed == Notifications(s.read[c.sinkFrom..]))
  {
    RunKeepsInv(INITIAL, ts);
    assert CallerSound(After(INITIAL, ts), id);
  }

  /** A response channel never holds more than its capacity, so the read loop never blocks on one. */
  lemma DeliveryNeverBlocks(ts: seq<Step>)
    requires Legal(INITIAL, ts)
    ensures var s := After(INITIAL, ts);
      && (forall id :: id in s.callers ==> |s.callers[id].inbox| <= 1)
      && (s.routing.Some? ==> s.routing.value in s.callers && s.callers[s.routing.value].inbox == [])
  {
    RunKeepsInv(INITIAL, ts);
    var s := After(INITIAL, ts);
    forall id | id in s.callers ensures |s.callers[id].inbox| <= 1 { assert CallerSound(s, id); }
    if s.routing.Some? { assert CallerSound(s, s.routing.value); }
  }

  // ---------------------------------------------------------------- when a sink overflows

  /** A sink never holds more than its capacity, and drops a frame only behind that many others. */
  predicate Roomy(read: seq<Frame>, c: Caller) {
    && |c.queue| <= SINK_CAP && c.sinkFrom <= |read|
    && (c.overflowed ==> |Notifications(read[c.sinkFrom..])| > SINK_CAP)
  }

  ghost predicate AllRoomy(s: State) {
    forall id :: id in s.callers ==> Roomy(s.read, s.callers[id])
  }

  lemma ReadKeepsRoomy(read: seq<Frame>, c: Caller, f: Frame, registered: bool)
    requires SinkSound(read, c) && Roomy(read, c) && (registered ==> !c.at.Registered?)
    ensures Roomy(read + [f], if IsNotification(f) && registered then Hear(c, f) else c)
  {
    var read' := read + [f];
    assert read'[c.sinkFrom..] == read[c.sinkFrom..] + [f];
    NotificationsSnoc(read[c.sinkFrom..], f);
    if IsNotification(f) && registered && !c.overflowed && !c.at.Returned? {
      assert |c.consumed + c.queue| == |Notifications(read[c.sinkFrom..])|;
    }
  }

  lemma StepKeepsRoomy(s: State, t: Step)
    requires Inv(s) && Enabled(s, t) && AllRoomy(s)
    ensures AllRoomy(Next(s, t))
  {
    if t.Read? {
      var s' := Next(s, t);
      forall id | id in s'.callers ensures Roomy(s'.read, s'.callers[id]) {
        assert CallerSound(s, id);
        ReadKeepsRoomy(s.read, s.callers[id], t.f, id in s.sinks);
      }
    }
  }

  lemma {:induction false} RunKeepsRoomy(s: State, ts: seq<Step>)
    requires Inv(s) && AllRoomy(s) && Legal(s, ts)
    ensures AllRoomy(After(s, ts))
    decreases |ts|
  {
    if ts != [] {
      StepKeepsInv(s, ts[0]);
      StepKeepsRoomy(s, ts[0]);
      RunKeepsRoomy(Next(s, ts[0]), ts[1..]);
    }
  }

  /** A caller loses a notification only after more than a sinkful of them was read since its sink was added. */
  lemma OverflowNeedsBacklog(ts: seq<Step>, id: int)
    requires Legal(INITIAL, ts) && id in After(INITIAL, ts).callers
    ensures var s := After(INITIAL, ts);
      var c := s.callers[id];
      && |c.queue| <= SINK_CAP && c.sinkFrom <= |s.read|
      && (|Notifications(s.read[c.sinkFrom..])| <= SINK_CAP ==> !c.overflowed)
  {
    RunKeepsRoomy(INITIAL, ts);
    assert Roomy(After(INITIAL, ts).read, After(INITIAL, ts).callers[id]);
  }

  // ---------------------------------------------------------------- calls come to an end

  lemma {:induction false} Unfold(s: State, t: Step, ts: seq<Step>)
    requires Enabled(s, t) && Legal(Next(s, t), ts)
    ensures Legal(s, [t] + ts) && After(s, [t] + ts) == After(Next(s, t), ts)
  {
    assert ([t] + ts)[1..] == ts;
  }

  /** A call that has just been made: registered, its sink added, waiting. */
  lemma CallStarts(s: State, prompt: bool)
    requires Inv(s)
    ensures var id := s.lastId + 1;
      && id !in s.callers && Enabled(s, Register(prompt)) && Enabled(Next(s, Register(prompt)), AddSink(id))
      && var w := Next(Next(s, Register(prompt)), AddSink(id));
         && Inv(w) && In(w, id, Waiting) && id in w.pending && id in w.sinks && w.lastId == id
         && w.read == s.read && w.closed == s.closed && w.routing == s.routing
         && w.callers[id].prompt == prompt && w.callers[id].inbox == [] && w.callers[id].queue == [] == w.callers[id].consumed
  {
    RegisterIsNew(s);
    StepKeepsInv(s, Register(prompt));
    StepKeepsInv(Next(s, Register(prompt)), AddSink(s.lastId + 1));
  }

  lemma RegisterIsNew(s: State)
    requires Inv(s)
    ensures s.lastId + 1 !in s.callers
  {
    assert forall id :: id in s.callers ==> CallerSound(s, id);
  }

  /** A waiting call whose answer is still to come, with nothing unread. */
  predicate Idle(s: State, id: int) {
    && In(s, id, Waiting) && id in s.pending && id in s.sinks && !s.closed && s.routing.None?
    && s.callers[id].inbox == [] && s.callers[id].queue == []
  }

  /** It hears what is streamed. */
  lemma NoteIsHeard(s: State, id: int, note: Frame)
    requires Inv(s) && Idle(s, id) && IsNotification(note)
    ensures Enabled(s, Read(note)) && Enabled(Next(s, Read(note)), TakeNotification(id))
    ensures var s' := Next(Next(s, Read(note)), TakeNotification(id));
      && Inv(s') && Idle(s', id) && s'.callers[id].consumed == s.callers[id].consumed + [note]
  {
    StepKeepsInv(s, Read(note));
    var s1 := Next(s, Read(note));
    assert s1.callers[id].queue == [note];
    StepKeepsInv(s1, TakeNotification(id));
  }

  /** Its response is delivered to it. */
  lemma ResponseIsDelivered(s: State, id: int, f: Frame)
    requires Inv(s) && Idle(s, id) && IsResponseTo(f, id)
    ensures Enabled(s, Read(f)) && Enabled(Next(s, Read(f)), Deliver)
    ensures var s' := Next(Next(s, Read(f)), Deliver);
      && In(s', id, Waiting) && s'.callers[id].inbox == [f] && s'.callers[id].queue == []
      && s'.callers[id].consumed == s.callers[id].consumed && id !in s'.pending && s'.routing.None?
  {
    var s1 := Next(s, Read(f));
    assert s1.routing == Some(id) && s1.read[s1.callers[id].answer.value] == f;
  }

  /** ... and it returns with it, and with what it heard. */
  lemma ResponseIsReturned(s: State, id: int, f: Frame)
    requires Inv(s) && Idle(s, id) && IsResponseTo(f, id)
    ensures var ts := [Read(f), Deliver, TakeResponse(id), DrainEnd(id)];
      && Legal(s, ts) && In(After(s, ts), id, Returned(Response(f)))
      && After(s, ts).callers[id].consumed == s.callers[id].consumed && id !in After(s, ts).pending
  {
    ResponseIsDelivered(s, id, f);
    var s1 := Next(s, Read(f));
    var s2 := Next(s1, Deliver);
    var s3 := Next(s2, TakeResponse(id));
    Unfold(s3, DrainEnd(id), []);
    Unfold(s2, TakeResponse(id), [DrainEnd(id)]);
    Unfold(s1, Deliver, [TakeResponse(id)] + [DrainEnd(id)]);
    Unfold(s, Read(f), [Deliver] + ([TakeResponse(id)] + [DrainEnd(id)]));
    assert [Read(f), Deliver, TakeResponse(id), DrainEnd(id)] == [Read(f)] + ([Deliver] + ([TakeResponse(id)] + [DrainEnd(id)]));
  }

  /**
   When the connection goes down without a response, the call returns that; a prompt first hands
   back what was streamed.
   */
  lemma LossIsReported(s: State, id: int)
    requires Inv(s) && In(s, id, Waiting) && !s.closed && s.routing.None? && s.callers[id].inbox == []
    requires s.callers[id].queue == []
    ensures var ts := [Close, NoticeClose(id), CheckResponse(id)] + if s.callers[id].prompt then [DrainEnd(id)] else [];
      Legal(s, ts) && In(After(s, ts), id, Returned(ConnectionLost))
  {
    var s1 := Next(s, Close);
    var s2 := Next(s1, NoticeClose(id));
    var s3 := Next(s2, CheckResponse(id));
    var end := if s.callers[id].prompt then [DrainEnd(id)] else [];
    if s.callers[id].prompt { Unfold(s3, DrainEnd(id), []); }
    Unfold(s2, CheckResponse(id), end);
    Unfold(s1, NoticeClose(id), [CheckResponse(id)] + end);
    Unfold(s, Close, [NoticeClose(id)] + ([CheckResponse(id)] + end));
    assert [Close, NoticeClose(id), CheckResponse(id)] + end == [Close] + ([NoticeClose(id)] + ([CheckResponse(id)] + end));
  }

  /** A response that was delivered before the loss is noticed is still returned. */
  lemma LateCheckFindsResponse(s: State, id: int, f: Frame)
    requires Inv(s) && In(s, id, Waiting) && s.closed && s.callers[id].inbox == [f] && s.callers[id].queue == []
    ensures var ts := [NoticeClose(id), CheckResponse(id), DrainEnd(id)];
      Legal(s, ts) && In(After(s, ts), id, Returned(Response(f)))
  {
    var s1 := Next(s, NoticeClose(id));
    var s2 := Next(s1, CheckResponse(id));
    Unfold(s2, DrainEnd(id), []);
    Unfold(s1, CheckResponse(id), [DrainEnd(id)]);
    Unfold(s, NoticeClose(id), [CheckResponse(id)] + [DrainEnd(id)]);
    assert [NoticeClose(id), CheckResponse(id), DrainEnd(id)] == [NoticeClose(id)] + ([CheckResponse(id)] + [DrainEnd(id)]);
  }

  /** A cancelled context or a failed send ends the call at once, and a call that is over leaves nothing registered. */
  lemma CallGivesUp(s: State, id: int, t: Step)
    requires Inv(s) && In(s, id, Waiting) && (t == NoticeContext(id) || t == FailSend(id))
    ensures var ts := [t, RemoveSink(id), Unregister(id)];
      && Legal(s, ts) && In(After(s, ts), id, Returned(if t.FailSend? then SendFailed else ContextDone))
      && id !in After(s, ts).sinks && id !in After(s, ts).pending
  {
    var s1 := Next(s, t);
    var s2 := Next(s1, RemoveSink(id));
    Unfold(s2, Unregister(id), []);
    Unfold(s1, RemoveSink(id), [Unregister(id)]);
    Unfold(s, t, [RemoveSink(id)] + [Unregister(id)]);
    assert [t, RemoveSink(id), Unregister(id)] == [t] + ([RemoveSink(id)] + [Unregister(id)]);
  }
}
