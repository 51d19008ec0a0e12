/**
 The tee's ask protocol (harness/internal/tee/tee.go): an agent's permission ask or question
 is offered to attached viewers, the first answer wins, and the ask may also time out, be
 shut down, or be offered late to a viewer that attaches.

 `Shared` is what the server's mutex and atomics protect; `Server` updates it in place, one
 method per critical section.  `State` adds the goroutines and channels around it, and a
 `Step` is one lock section, channel operation or atomic store, in any interleaving.
 */
module AskRelay {
  import opened Common

  type Body = string

  datatype Prefix = Kperm | Kask

  datatype AskId = AskId(prefix: Prefix, n: nat)

  // ---------------------------------------------------------------- the server's shared state

  datatype Shared = Shared(
    viewers: set<nat>,
    perms: set<AskId>,                  // asks whose answer channel is still on offer
    pendingAsks: map<AskId, Body>,      // the frame replayed to a viewer attaching mid-ask
    stopped: bool,
    responsive: bool,
    permSeq: nat)

  function Registered(sh: Shared, id: AskId, frame: Body): (r: (Shared, bool)) {
    if sh.stopped || sh.viewers == {} || !sh.responsive then (sh, false)
    else (sh.(perms := sh.perms + {id}, pendingAsks := sh.pendingAsks[id := frame]), true)
  }

  function Forgotten(sh: Shared, id: AskId): Shared {
    sh.(perms := sh.perms - {id}, pendingAsks := sh.pendingAsks - {id})
  }

  function Attached(sh: Shared, v: nat): (Shared, bool) {
    if sh.stopped then (sh, false)
    else (sh.(viewers := sh.viewers + {v}, responsive := true), true)
  }

  class Server {
    var viewers: set<nat>
    var perms: set<AskId>
    var pendingAsks: map<AskId, Body>
    var stopped: bool
    var responsive: bool
    var permSeq: nat

    constructor ()
      ensures View() == Shared({}, {}, map[], false, false, 0)
    {
      viewers, perms, pendingAsks := {}, {}, map[];
      stopped, responsive, permSeq := false, false, 0;
    }

    ghost function View(): Shared
      reads this
    {
      Shared(viewers, perms, pendingAsks, stopped, responsive, permSeq)
    }

    method NextId(prefix: Prefix) returns (id: AskId)
      modifies this`permSeq
      ensures View() == old(View()).(permSeq := old(permSeq) + 1)
      ensures id == AskId(prefix, old(permSeq) + 1)
    {
      permSeq := permSeq + 1;
      id := AskId(prefix, permSeq);
    }

    /** forwardAsk's first critical section: register the ask, or refuse it on the spot. */
    method Register(id: AskId, frame: Body) returns (ok: bool)
      modifies this`perms, this`pendingAsks
      ensures (View(), ok) == Registered(old(View()), id, frame)
      ensures ok <==> !stopped && viewers != {} && responsive
      ensures perms == if ok then old(perms) + {id} else old(perms)
      ensures pendingAsks == if ok then old(pendingAsks)[id := frame] else old(pendingAsks)
    {
      if stopped || |viewers| == 0 { return false; }
      if !responsive { return false; }
      perms := perms + {id};
      pendingAsks := pendingAsks[id := frame];
      return true;
    }

    /** resolveAsk: a sign of life, and, with a result, the removal that makes this caller the winner. */
    method Resolve(id: AskId, result: Option<Body>) returns (won: bool)
      modifies this`responsive, this`perms, this`pendingAsks
      ensures won == (result.Some? && id in old(perms))
      ensures View() == (if won then Forgotten(old(View()), id) else old(View())).(responsive := true)
      ensures perms == if won then old(perms) - {id} else old(perms)
      ensures pendingAsks == if won then old(pendingAsks) - {id} else old(pendingAsks)
    {
      responsive := true;
      if result.None? { return false; }
      if id in perms {
        perms := perms - {id};
        pendingAsks := pendingAsks - {id};
        return true;
      }
      return false;
    }

    /** forwardAsk's deferred cleanup. */
    method Forget(id: AskId)
      modifies this`perms, this`pendingAsks
      ensures View() == Forgotten(old(View()), id)
      ensures perms == old(perms) - {id} && pendingAsks == old(pendingAsks) - {id}
    {
      perms := perms - {id};
      pendingAsks := pendingAsks - {id};
    }

    method GiveUp()
      modifies this`responsive
      ensures View() == old(View()).(responsive := false)
    {
      responsive := false;
    }

    method AddViewer(v: nat) returns (ok: bool)
      modifies this`viewers, this`responsive
      ensures (View(), ok) == Attached(old(View()), v)
      ensures ok <==> !stopped
      ensures viewers == if ok then old(viewers) + {v} else old(viewers)
      ensures responsive == (ok || old(responsive))
    {
      if stopped { return false; }
      viewers := viewers + {v};
      responsive := true;
      return true;
    }

    method RemoveViewer(v: nat)
      modifies this`viewers
      ensures View() == old(View()).(viewers := old(viewers) - {v})
    {
      viewers := viewers - {v};
    }

    method Stop()
      modifies this`stopped
      ensures View() == old(View()).(stopped := true)
    {
      stopped := true;
    }
  }

  // ---------------------------------------------------------------- goroutines and channels

  datatype Outcome = NoViewers | Answered(result: Body) | TimedOut

  /** Where the goroutine running forwardAsk stands. */
  datatype Ask =
    | Allocated
    | Parked                       // in the select
    | Expiring                     // its timer fired; responsive not yet cleared
    | Closing(outcome: Outcome)    // left the select; deferred cleanup still to run
    | Returned(outcome: Outcome)

  datatype State = State(
    sh: Shared,
    done: bool,                          // Stop closed the done channel
    asks: map<AskId, Ask>,
    committed: map<AskId, Body>,         // the answer of the resolver that removed the id
    unsent: set<AskId>,                  // ... while it still has to send it
    channel: map<AskId, seq<Body>>,      // each ask's answer channel, capacity 1
    waited: nat,                         // asks that waited out their timeout
    signs: nat)                          // signs of life so far

  const INITIAL := State(Shared({}, {}, map[], false, false, 0), false, map[], map[], {}, map[], 0, 0)

  datatype Step =
    | Allocate(prefix: Prefix)
    | Register(id: AskId, frame: Body)
    | Receive(id: AskId)
    | SeeDone(id: AskId)
    | TimerFires(id: AskId)
    | GiveUp(id: AskId)
    | CleanUp(id: AskId)
    | HumanFrame                         // an ask-answer frame, a steer or a cancel arrives
    | Commit(id: AskId, result: Body)
    | Send(id: AskId)
    | Attach(viewer: nat)
    | Detach(viewer: nat)
    | CloseDone
    | SetStopped

  predicate Enabled(s: State, t: Step) {
    match t
    case Register(id, _) => id in s.asks && s.asks[id] == Allocated
    case Receive(id) => id in s.asks && s.asks[id] == Parked && id in s.channel && s.channel[id] != []
    case SeeDone(id) => id in s.asks && s.asks[id] == Parked && s.done
    case TimerFires(id) => id in s.asks && s.asks[id] == Parked
    case GiveUp(id) => id in s.asks && s.asks[id] == Expiring
    case CleanUp(id) => id in s.asks && s.asks[id].Closing?
    case Send(id) => id in s.unsent && id in s.committed && id in s.channel
    case _ => true
  }

  function Next(s: State, t: Step): State
    requires Enabled(s, t)
  {
    match t
    case Allocate(prefix) =>
      var id := AskId(prefix, s.sh.permSeq + 1);
      s.(sh := s.sh.(permSeq := s.sh.permSeq + 1), asks := s.asks[id := Allocated], channel := s.channel[id := []])
    case Register(id, frame) =>
      var (sh, ok) := Registered(s.sh, id, frame);
      s.(sh := sh, asks := s.asks[id := if ok then Parked else Returned(NoViewers)])
    case Receive(id) =>
      s.(asks := s.asks[id := Closing(Answered(s.channel[id][0]))], channel := s.channel[id := s.channel[id][1..]])
    case SeeDone(id) => s.(asks := s.asks[id := Closing(NoViewers)])
    case TimerFires(id) => s.(asks := s.asks[id := Expiring], waited := s.waited + 1)
    case GiveUp(id) => s.(sh := s.sh.(responsive := false), asks := s.asks[id := Closing(TimedOut)])
    case CleanUp(id) => s.(sh := Forgotten(s.sh, id), asks := s.asks[id := Returned(s.asks[id].outcome)])
    case HumanFrame => s.(sh := s.sh.(responsive := true), signs := s.signs + 1)
    case Commit(id, result) =>
      if id !in s.sh.perms then s
      else s.(sh := Forgotten(s.sh, id), committed := s.committed[id := result], unsent := s.unsent + {id})
    case Send(id) =>
      s.(unsent := s.unsent - {id}, channel := s.channel[id := s.channel[id] + [s.committed[id]]])
    case Attach(v) =>
      var (sh, ok) := Attached(s.sh, v);
      s.(sh := sh, signs := if ok then s.signs + 1 else s.signs)
    case Detach(v) => s.(sh := s.sh.(viewers := s.sh.viewers - {v}))
    case CloseDone => s.(done := true)
    case SetStopped => s.(sh := s.sh.(stopped := true))
  }

  predicate Legal(s: State, ts: seq<Step>)
    decreases |ts|
  {
    ts == [] || (Enabled(s, ts[0]) && Legal(Next(s, ts[0]), ts[1..]))
  }

  function After(s: State, ts: seq<Step>): State
    requires Legal(s, ts)
    decreases |ts|
  {
    if ts == [] then s else After(Next(s, ts[0]), ts[1..])
  }

  // ---------------------------------------------------------------- first answer wins

  /** Not answered yet, and nothing in the channel. */
  predicate Unanswered(s: State, id: AskId)
    requires id in s.channel
  {
    id !in s.committed && s.channel[id] == []
  }

  /** Answered by one resolver, whose send is the only one the channel ever gets. */
  predicate InFlight(s: State, id: AskId)
    requires id in s.channel
  {
    && id in s.committed && id !in s.sh.perms
    && s.channel[id] == if id in s.unsent then [] else [s.committed[id]]
  }

  predicate AskSound(s: State, id: AskId)
    requires id in s.asks && id in s.channel
  {
    match s.asks[id]
    case Allocated => id !in s.sh.perms && Unanswered(s, id)
    case Parked => (id in s.sh.perms && Unanswered(s, id)) || InFlight(s, id)
    case Expiring => (id in s.sh.perms && Unanswered(s, id)) || InFlight(s, id)
    case Closing(o) =>
      if o.Answered? then Delivered(s, id, o.result)
      else (id in s.sh.perms && Unanswered(s, id)) || InFlight(s, id)
    case Returned(o) =>
      if o.Answered? then Delivered(s, id, o.result)
      else (id !in s.sh.perms && Unanswered(s, id)) || InFlight(s, id)
  }

  /** The asker holds exactly what the winning resolver committed. */
  predicate Delivered(s: State, id: AskId, result: Body)
    requires id in s.channel
  {
    && id !in s.sh.perms && id in s.committed && id !in s.unsent
    && s.committed[id] == result && s.channel[id] == []
  }

  ghost predicate Inv(s: State) {
    && s.sh.perms == s.sh.pendingAsks.Keys
    && s.channel.Keys == s.asks.Keys
    && s.sh.perms <= s.asks.Keys && s.committed.Keys <= s.asks.Keys && s.unsent <= s.committed.Keys
    && (forall id :: id in s.asks ==> id.n <= s.sh.permSeq)
    && (forall id :: id in s.asks ==> AskSound(s, id))
  }

  /** A step touches the bookkeeping of at most one ask. */
  ghost predicate Untouched(s: State, s': State, id: AskId)
    requires s.channel.Keys == s.asks.Keys && s'.channel.Keys == s'.asks.Keys
  {
    && id in s.asks && id in s'.asks && s'.asks[id] == s.asks[id] && s'.channel[id] == s.channel[id]
    && (id in s'.sh.perms <==> id in s.sh.perms) && (id in s'.unsent <==> id in s.unsent)
    && (id in s'.committed <==> id in s.committed)
    && (id in s.committed ==> s'.committed[id] == s.committed[id])
  }

  lemma UntouchedSound(s: State, s': State, id: AskId)
    requires s.channel.Keys == s.asks.Keys && s'.channel.Keys == s'.asks.Keys
    requires Untouched(s, s', id) && AskSound(s, id)
    ensures AskSound(s', id)
  {
  }

  function Touches(s: State, t: Step): Option<AskId> {
    match t
    case Allocate(prefix) => Some(AskId(prefix, s.sh.permSeq + 1))
    case HumanFrame => None
    case Attach(_) => None
    case Detach(_) => None
    case CloseDone => None
    case SetStopped => None
    case _ => Some(t.id)
  }

  lemma StepFrame(s: State, t: Step, id: AskId)
    requires s.channel.Keys == s.asks.Keys && Enabled(s, t)
    requires id in s.asks && Touches(s, t) != Some(id)
    ensures Next(s, t).channel.Keys == Next(s, t).asks.Keys
    ensures Untouched(s, Next(s, t), id)
  {
  }

  lemma TouchedSound(s: State, t: Step)
    requires Inv(s) && Enabled(s, t) && Touches(s, t).Some?
    ensures Next(s, t).channel.Keys == Next(s, t).asks.Keys
    ensures var id := Touches(s, t).value; id in Next(s, t).asks ==> AskSound(Next(s, t), id)
  {
    var id := Touches(s, t).value;
    if t.Allocate? {
      assert id !in s.asks;
    } else if id in s.asks {
      assert AskSound(s, id);
    }
  }

  lemma StepKeepsInv(s: State, t: Step)
    requires Inv(s) && Enabled(s, t)
    ensures Inv(Next(s, t))
  {
    var s' := Next(s, t);
    if Touches(s, t).Some? {
      TouchedSound(s, t);
    }
    forall id | id in s'.asks ensures id in s'.channel && AskSound(s', id) {
      if Touches(s, t) != Some(id) {
        StepFrame(s, t, id);
        UntouchedSound(s, s', id);
      }
    }
  }

  lemma {:induction false} RunKeepsInv(s: State, ts: seq<Step>)
    requires Inv(s) && Legal(s, ts)
    ensures Inv(After(s, ts))
    decreases |ts|
  {
    if ts != [] {
      StepKeepsInv(s, ts[0]);
      RunKeepsInv(Next(s, ts[0]), ts[1..]);
    }
  }

  /**
   After any interleaving: the two maps agree, so a backlog offers exactly the asks whose
   channel is on offer, none of which is answered; a pending send finds its channel empty, so
   it cannot block; and an answered ask returned the winning resolver's result.
   */
  lemma FirstAnswerWins(ts: seq<Step>)
    requires Legal(INITIAL, ts)
    ensures var s := After(INITIAL, ts);
      && s.sh.perms == s.sh.pendingAsks.Keys
      && s.sh.pendingAsks.Keys !! s.committed.Keys
      && (forall id :: id in s.unsent ==> id in s.channel && s.channel[id] == [])
      && (forall id :: id in s.channel ==> |s.channel[id]| <= 1)
      && (forall id :: id in s.asks && s.asks[id].Returned? && s.asks[id].outcome.Answered? ==>
            id in s.committed && s.committed[id] == s.asks[id].outcome.result)
  {
    RunKeepsInv(INITIAL, ts);
    var s := After(INITIAL, ts);
    forall id | id in s.asks ensures AskSound(s, id) {}
  }

  /** A winner's result is never replaced, and once sent it is never sent again. */
  ghost predicate AnswersAreFinal(s: State, s': State) {
    && (forall id :: id in s.committed ==> id in s'.committed && s'.committed[id] == s.committed[id])
    && (forall id :: id in s.committed && id !in s.unsent ==> id !in s'.unsent)
    && (forall id :: id in s.asks && s.asks[id].Returned? ==> id in s'.asks && s'.asks[id] == s.asks[id])
  }

  lemma StepKeepsAnswers(s: State, t: Step)
    requires Inv(s) && Enabled(s, t)
    ensures s.asks.Keys <= Next(s, t).asks.Keys && AnswersAreFinal(s, Next(s, t))
  {
    var s' := Next(s, t);
    forall id | id in s.asks
      ensures id in s'.asks && (s.asks[id].Returned? ==> s'.asks[id] == s.asks[id])
      ensures id in s.committed ==> id in s'.committed && s'.committed[id] == s.committed[id]
      ensures id in s.committed && id !in s.unsent ==> id !in s'.unsent
    {
      if Touches(s, t) != Some(id) { StepFrame(s, t, id); } else { TouchedAnswer(s, t, id); }
    }
  }

  lemma TouchedAnswer(s: State, t: Step, id: AskId)
    requires Inv(s) && Enabled(s, t) && id in s.asks && Touches(s, t) == Some(id)
    ensures var s' := Next(s, t);
      && id in s'.asks && (s.asks[id].Returned? ==> s'.asks[id] == s.asks[id])
      && (id in s.committed ==> id in s'.committed && s'.committed[id] == s.committed[id])
      && (id in s.committed && id !in s.unsent ==> id !in s'.unsent)
  {
    assert AskSound(s, id);
  }

  lemma {:induction false} RunKeepsAnswers(s: State, ts: seq<Step>)
    requires Inv(s) && Legal(s, ts)
    ensures AnswersAreFinal(s, After(s, ts))
    decreases |ts|
  {
    if ts != [] {
      StepKeepsInv(s, ts[0]);
      StepKeepsAnswers(s, ts[0]);
      RunKeepsAnswers(Next(s, ts[0]), ts[1..]);
    }
  }

  // ---------------------------------------------------------------- bounded parking

  function ParkedAsks(s: State): set<AskId> {
    set id | id in s.asks && s.asks[id] == Parked
  }

  function ExpiringAsks(s: State): set<AskId> {
    set id | id in s.asks && s.asks[id] == Expiring
  }

  /** At most `askers` asks are waiting at any moment of the run. */
  predicate AtMostAskers(askers: nat, s: State, ts: seq<Step>)
    requires Legal(s, ts)
    decreases |ts|
  {
    && |ParkedAsks(s)| + |ExpiringAsks(s)| <= askers
    && (ts != [] ==> AtMostAskers(askers, Next(s, ts[0]), ts[1..]))
  }

  /** Each sign of life pays for one round of timeouts: one per concurrent asker. */
  ghost predicate Paid(askers: nat, s: State) {
    if s.sh.responsive then s.waited + askers <= askers * s.signs + |ExpiringAsks(s)|
    else s.waited + |ParkedAsks(s)| <= askers * s.signs
  }

  lemma MovedAsk(s: State, s': State, id: AskId, a: Ask)
    requires s'.asks == s.asks[id := a]
    ensures ParkedAsks(s') == ParkedAsks(s) - {id} + if a == Parked then {id} else {}
    ensures ExpiringAsks(s') == ExpiringAsks(s) - {id} + if a == Expiring then {id} else {}
  {
  }

  lemma StepKeepsPaid(askers: nat, s: State, t: Step)
    requires Inv(s) && Enabled(s, t) && Paid(askers, s)
    requires |ParkedAsks(s)| + |ExpiringAsks(s)| <= askers
    requires |ParkedAsks(Next(s, t))| + |ExpiringAsks(Next(s, t))| <= askers
    ensures Paid(askers, Next(s, t))
  {
    if Touches(s, t).None? || t.Commit? || t.Send? {
      SignKeepsPaid(askers, s, t);
    } else {
      var id := Touches(s, t).value;
      assert t.Allocate? ==> id !in s.asks;
      MoveKeepsPaid(askers, s, t, id);
    }
  }

  /** How many asks are parked and expiring once one has moved. */
  lemma MovedCounts(s: State, s': State, id: AskId, a: Ask)
    requires s'.asks == s.asks[id := a]
    ensures |ParkedAsks(s')| ==
      |ParkedAsks(s)| - (if id in ParkedAsks(s) then 1 else 0) + (if a == Parked then 1 else 0)
    ensures |ExpiringAsks(s')| ==
      |ExpiringAsks(s)| - (if id in ExpiringAsks(s) then 1 else 0) + (if a == Expiring then 1 else 0)
  {
    MovedAsk(s, s', id, a);
  }

  lemma MoveKeepsPaid(askers: nat, s: State, t: Step, id: AskId)
    requires Enabled(s, t) && Paid(askers, s)
    requires Touches(s, t) == Some(id) && !t.Commit? && !t.Send? && (t.Allocate? ==> id !in s.asks)
    requires |ParkedAsks(s)| + |ExpiringAsks(s)| <= askers
    requires |ParkedAsks(Next(s, t))| + |ExpiringAsks(Next(s, t))| <= askers
    ensures Paid(askers, Next(s, t))
  {
    var s' := Next(s, t);
    MovedCounts(s, s', id, s'.asks[id]);
    assert askers * s.signs == askers * s'.signs;
  }

  lemma SignKeepsPaid(askers: nat, s: State, t: Step)
    requires Enabled(s, t) && Paid(askers, s)
    requires Touches(s, t).None? || t.Commit? || t.Send?
    requires |ParkedAsks(s)| + |ExpiringAsks(s)| <= askers
    ensures Paid(askers, Next(s, t))
  {
    var s' := Next(s, t);
    assert s'.asks == s.asks;
    assert ParkedAsks(s') == ParkedAsks(s) && ExpiringAsks(s') == ExpiringAsks(s);
    assert askers * (s.signs + 1) == askers * s.signs + askers;
  }

  lemma {:induction false} RunKeepsPaid(askers: nat, s: State, ts: seq<Step>)
    requires Inv(s) && Legal(s, ts) && AtMostAskers(askers, s, ts) && Paid(askers, s)
    ensures Paid(askers, After(s, ts))
    ensures |ExpiringAsks(After(s, ts))| <= askers
    decreases |ts|
  {
    if ts != [] {
      StepKeepsInv(s, ts[0]);
      StepKeepsPaid(askers, s, ts[0]);
      RunKeepsPaid(askers, Next(s, ts[0]), ts[1..]);
    }
  }

  /**
   However the viewers behave, the asks that park for the full window number at most one per
   sign of life for each concurrent asker; with one asker at a time, at most one per sign.
   */
  lemma BoundedParking(askers: nat, ts: seq<Step>)
    requires Legal(INITIAL, ts) && AtMostAskers(askers, INITIAL, ts)
    ensures Timeouts(ts) <= askers * Signs(ts)
  {
    RunKeepsPaid(askers, INITIAL, ts);
    RunRemembers(ts);
  }

  // ---------------------------------------------------------------- when an ask is offered

  /** The server was stopped at some point of the history. */
  predicate Stopped(ts: seq<Step>) {
    SetStopped in ts
  }

  /** Viewer v attached before any stop, and has not left since. */
  predicate Watching(ts: seq<Step>, v: nat) {
    exists i :: 0 <= i < |ts| && ts[i] == Attach(v) && !Stopped(ts[..i]) && Detach(v) !in ts[i..]
  }

  /** A human frame, or a viewer that was let in. */
  predicate SignOfLife(ts: seq<Step>, i: nat)
    requires i < |ts|
  {
    ts[i].HumanFrame? || (ts[i].Attach? && !Stopped(ts[..i]))
  }

  /** Some viewer showed a sign of life, and no ask has waited out its timeout since. */
  predicate Attentive(ts: seq<Step>) {
    exists i :: 0 <= i < |ts| && SignOfLife(ts, i) && forall j :: i < j < |ts| ==> !ts[j].GiveUp?
  }

  /** What the server holds is what the history says. */
  ghost predicate Remembers(sh: Shared, ts: seq<Step>) {
    && (sh.stopped <==> Stopped(ts))
    && (sh.responsive <==> Attentive(ts))
    && (forall v :: v in sh.viewers <==> Watching(ts, v))
  }

  /** How many asks waited out their timeout. */
  function Timeouts(ts: seq<Step>): nat {
    if ts == [] then 0 else Timeouts(ts[..|ts| - 1]) + if ts[|ts| - 1].TimerFires? then 1 else 0
  }

  /** How many signs of life there were. */
  function Signs(ts: seq<Step>): nat {
    if ts == [] then 0 else Signs(ts[..|ts| - 1]) + if SignOfLife(ts, |ts| - 1) then 1 else 0
  }

  lemma {:induction false} AfterSnoc(s: State, ts: seq<Step>, t: Step)
    requires Legal(s, ts + [t])
    ensures Legal(s, ts) && Enabled(After(s, ts), t) && After(s, ts + [t]) == Next(After(s, ts), t)
    decreases |ts|
  {
    if ts == [] {
      assert [t][1..] == [] && ts + [t] == [t];
    } else {
      assert (ts + [t])[1..] == ts[1..] + [t];
      AfterSnoc(Next(s, ts[0]), ts[1..], t);
    }
  }

  lemma StoppedSnoc(ts: seq<Step>, t: Step)
    ensures Stopped(ts + [t]) <==> Stopped(ts) || t.SetStopped?
  {
  }

  lemma WatchingSnoc(ts: seq<Step>, t: Step, v: nat)
    ensures Watching(ts + [t], v) <==> (Watching(ts, v) && t != Detach(v)) || (t == Attach(v) && !Stopped(ts))
  {
    var all, n := ts + [t], |ts|;
    assert all[..n] == ts && all[n..] == [t];
    forall i | 0 <= i < n ensures all[..i] == ts[..i] && all[i..] == ts[i..] + [t] {}
    if Watching(ts, v) && t != Detach(v) {
      var i :| 0 <= i < n && ts[i] == Attach(v) && !Stopped(ts[..i]) && Detach(v) !in ts[i..];
      assert all[i] == Attach(v) && all[..i] == ts[..i] && Detach(v) !in all[i..];
    }
    if t == Attach(v) && !Stopped(ts) { assert all[n] == Attach(v); }
  }

  lemma AttentiveSnoc(ts: seq<Step>, t: Step)
    ensures Attentive(ts + [t]) <==> (Attentive(ts) && !t.GiveUp?) || t.HumanFrame? || (t.Attach? && !Stopped(ts))
  {
    var all, n := ts + [t], |ts|;
    assert all[..n] == ts && all[n] == t;
    forall i | 0 <= i < n ensures SignOfLife(all, i) <==> SignOfLife(ts, i) { assert all[..i] == ts[..i]; }
    if Attentive(ts) && !t.GiveUp? {
      var i :| 0 <= i < n && SignOfLife(ts, i) && forall j :: i < j < n ==> !ts[j].GiveUp?;
      assert SignOfLife(all, i);
    }
    if t.HumanFrame? || (t.Attach? && !Stopped(ts)) { assert SignOfLife(all, n); }
  }

  lemma {:induction false} RunRemembers(ts: seq<Step>)
    requires Legal(INITIAL, ts)
    ensures Remembers(After(INITIAL, ts).sh, ts)
    ensures After(INITIAL, ts).done <==> CloseDone in ts
    ensures After(INITIAL, ts).waited == Timeouts(ts) && After(INITIAL, ts).signs == Signs(ts)
    decreases |ts|
  {
    if ts != [] {
      var front, t := ts[..|ts| - 1], ts[|ts| - 1];
      assert ts == front + [t];
      AfterSnoc(INITIAL, front, t);
      RunRemembers(front);
      StepRemembers(After(INITIAL, front), front, t);
      StepCounts(After(INITIAL, front), front, t);
    }
  }

  lemma StepRemembers(s: State, ts: seq<Step>, t: Step)
    requires Enabled(s, t) && Remembers(s.sh, ts)
    ensures Remembers(Next(s, t).sh, ts + [t])
  {
    StoppedSnoc(ts, t);
    AttentiveSnoc(ts, t);
    forall v ensures v in Next(s, t).sh.viewers <==> Watching(ts + [t], v) { WatchingSnoc(ts, t, v); }
  }

  lemma StepCounts(s: State, ts: seq<Step>, t: Step)
    requires Enabled(s, t) && (s.sh.stopped <==> Stopped(ts)) && (s.done <==> CloseDone in ts)
    requires s.waited == Timeouts(ts) && s.signs == Signs(ts)
    ensures Next(s, t).done <==> CloseDone in ts + [t]
    ensures Next(s, t).waited == Timeouts(ts + [t]) && Next(s, t).signs == Signs(ts + [t])
  {
    var all := ts + [t];
    assert all[..|ts|] == ts && all[|ts|] == t;
  }

  /**
   After any history an ask is offered exactly if the server was never stopped, some viewer is still
   attached, and a viewer has shown a sign of life since the last timeout.  Then its frame is replayed
   to whoever attaches; otherwise it returns at once and leaves no trace.
   */
  lemma OfferedExactly(ts: seq<Step>, id: AskId, frame: Body)
    requires Legal(INITIAL, ts) && Enabled(After(INITIAL, ts), Register(id, frame))
    ensures var s := After(INITIAL, ts);
      var s' := Next(s, Register(id, frame));
      if !Stopped(ts) && (exists v :: Watching(ts, v)) && Attentive(ts)
      then s'.asks[id] == Parked && id in s'.sh.perms && s'.sh.pendingAsks == s.sh.pendingAsks[id := frame]
      else s'.asks[id] == Returned(NoViewers) && s'.sh == s.sh
  {
    RunRemembers(ts);
    var s := After(INITIAL, ts);
    assert s.sh.viewers != {} <==> exists v :: v in s.sh.viewers;
  }

  lemma {:induction false} Unfold(s: State, t: Step, ts: seq<Step>)
    requires Enabled(s, t) && Legal(Next(s, t), ts)
    ensures Legal(s, [t] + ts) && After(s, [t] + ts) == After(Next(s, t), ts)
  {
    assert ([t] + ts)[1..] == ts;
  }

  /** An ask that has been offered and is answered by a viewer returns that viewer's answer, verbatim. */
  lemma AnswerReturns(s: State, id: AskId, result: Body)
    requires Inv(s) && id in s.asks && s.asks[id] == Parked && id in s.sh.perms
    ensures var ts := [Commit(id, result), Send(id), Receive(id), CleanUp(id)];
      Legal(s, ts) && id in After(s, ts).asks && After(s, ts).asks[id] == Returned(Answered(result))
  {
    assert AskSound(s, id);
    var s1 := Next(s, Commit(id, result));
    var s2 := Next(s1, Send(id));
    assert s2.channel[id] == [result];
    var s3 := Next(s2, Receive(id));
    Unfold(s3, CleanUp(id), []);
    Unfold(s2, Receive(id), [CleanUp(id)]);
    Unfold(s1, Send(id), [Receive(id)] + [CleanUp(id)]);
    Unfold(s, Commit(id, result), [Send(id)] + ([Receive(id)] + [CleanUp(id)]));
    assert [Commit(id, result), Send(id), Receive(id), CleanUp(id)]
        == [Commit(id, result)] + ([Send(id)] + ([Receive(id)] + [CleanUp(id)]));
  }

  /** The steps that take an ask from its id to a viewer's answer. */
  function Answering(id: AskId, frame: Body, result: Body): seq<Step> {
    [Register(id, frame), Commit(id, result), Send(id), Receive(id), CleanUp(id)]
  }

  /** From any reachable state with a viewer who is paying attention, a new ask can be answered. */
  lemma ViewerCanAnswer(s: State, id: AskId, frame: Body, result: Body)
    requires Inv(s) && id in s.asks && s.asks[id] == Allocated
    requires !s.sh.stopped && s.sh.viewers != {} && s.sh.responsive
    ensures var ts := Answering(id, frame, result);
      Legal(s, ts) && id in After(s, ts).asks && After(s, ts).asks[id] == Returned(Answered(result))
  {
    var rest := [Commit(id, result), Send(id), Receive(id), CleanUp(id)];
    StepKeepsInv(s, Register(id, frame));
    AnswerReturns(Next(s, Register(id, frame)), id, result);
    Unfold(s, Register(id, frame), rest);
    assert [Register(id, frame)] + rest == Answering(id, frame, result);
  }

  /** An ask nobody answers returns TimedOut, off offer, and until a sign of life the next one is not offered. */
  lemma UnansweredTimesOut(s: State, id: AskId)
    requires Inv(s) && id in s.asks && s.asks[id] == Parked && id in s.sh.perms
    ensures var ts := [TimerFires(id), GiveUp(id), CleanUp(id)];
      && Legal(s, ts) && id in After(s, ts).asks && After(s, ts).asks[id] == Returned(TimedOut)
      && id !in After(s, ts).sh.perms && !After(s, ts).sh.responsive
  {
    var s1 := Next(s, TimerFires(id));
    var s2 := Next(s1, GiveUp(id));
    Unfold(s2, CleanUp(id), []);
    Unfold(s1, GiveUp(id), [CleanUp(id)]);
    Unfold(s, TimerFires(id), [GiveUp(id)] + [CleanUp(id)]);
    assert [TimerFires(id), GiveUp(id), CleanUp(id)] == [TimerFires(id)] + ([GiveUp(id)] + [CleanUp(id)]);
  }

  /** Once Stop has closed the done channel, a parked ask returns as if nobody were there. */
  lemma ShutdownReleases(s: State, id: AskId)
    requires Inv(s) && id in s.asks && s.asks[id] == Parked && s.done
    ensures var ts := [SeeDone(id), CleanUp(id)];
      && Legal(s, ts) && id in After(s, ts).asks && After(s, ts).asks[id] == Returned(NoViewers)
      && id !in After(s, ts).sh.perms
  {
    var s1 := Next(s, SeeDone(id));
    Unfold(s1, CleanUp(id), []);
    Unfold(s, SeeDone(id), [CleanUp(id)]);
    assert [SeeDone(id), CleanUp(id)] == [SeeDone(id)] + [CleanUp(id)];
  }
}
