/**
 Answering the agent's requests (harness/internal/acp/wsclient.go dispatchAgentRequest and
 harness/internal/acp/session.go answerAgentRequest), end to end with the ask relay.

 Every request runs on its own goroutine.  `Script` lists what that goroutine does once the
 relay has returned; `SessionClient` is the code that does it; the machine below interleaves
 any number of requests with every step of the relay, and with the moments at which the relay is
 installed and the session created.
 */
module FailClosed {
  import opened Common
  import Relay = AskRelay

  type Body = Relay.Body

  datatype PermissionOption = PermissionOption(optionId: string, policy: string)

  datatype Kind =
    | RequestPermission(options: Option<seq<PermissionOption>>)   // None: params do not parse
    | CreateElicitation
    | Unsupported

  /** An agent-initiated request; `id` is its raw id bytes. */
  datatype Request = Request(id: string, kind: Kind)

  datatype Reply =
    | Relayed(result: Body)          // a viewer's own answer, verbatim
    | PermissionCancelled
    | PermissionSelected(optionId: string)
    | ElicitationCancel
    | MethodNotFound

  datatype Effect =
    | SendResponse(id: string, reply: Reply)
    | LatchUnanswered
    | CancelTurn

  const REJECT_ONCE := "reject_once"

  /** Option i is the first one-shot rejection on offer. */
  predicate FirstRejection(options: seq<PermissionOption>, i: nat) {
    && i < |options| && options[i].policy == REJECT_ONCE
    && forall j :: 0 <= j < i ==> options[j].policy != REJECT_ONCE
  }

  /** The headless denial: the first one-shot rejection on offer, and a cancelled outcome exactly if there is none. */
  function Denial(options: seq<PermissionOption>): (r: Reply)
    ensures r.PermissionCancelled? || r.PermissionSelected?
    ensures r.PermissionCancelled? <==> forall o :: o in options ==> o.policy != REJECT_ONCE
    ensures r.PermissionSelected? ==>
      exists o :: o in options && o.policy == REJECT_ONCE && r == PermissionSelected(o.optionId)
  {
    if options == [] then PermissionCancelled
    else if options[0].policy == REJECT_ONCE then PermissionSelected(options[0].optionId)
    else Denial(options[1..])
  }

  lemma {:induction false} DenialIsFirst(options: seq<PermissionOption>, i: nat)
    requires FirstRejection(options, i)
    ensures Denial(options) == PermissionSelected(options[i].optionId)
  {
    if i > 0 {
      assert options[0].policy != REJECT_ONCE;
      DenialIsFirst(options[1..], i - 1);
    }
  }

  /** Does this request go to the relay at all? */
  predicate Forwards(m: Kind) {
    m.CreateElicitation? || (m.RequestPermission? && m.options.Some?)
  }

  /** The headless reply: the first one-shot rejection on offer, and a cancelled outcome exactly if there is none. */
  ghost predicate Denies(options: seq<PermissionOption>, r: Reply) {
    || (exists i: nat :: FirstRejection(options, i) && r == PermissionSelected(options[i].optionId))
    || (r == PermissionCancelled && forall o :: o in options ==> o.policy != REJECT_ONCE)
  }

  lemma DenialDenies(options: seq<PermissionOption>)
    ensures Denies(options, Denial(options))
  {
    if o :| o in options && o.policy == REJECT_ONCE {
      var i := EarliestRejection(options);
      DenialIsFirst(options, i);
    }
  }

  lemma {:induction false} EarliestRejection(options: seq<PermissionOption>) returns (i: nat)
    requires exists o :: o in options && o.policy == REJECT_ONCE
    ensures FirstRejection(options, i)
  {
    if options[0].policy == REJECT_ONCE {
      i := 0;
    } else {
      assert options == [options[0]] + options[1..];
      i := EarliestRejection(options[1..]);
      i := i + 1;
    }
  }

  /** An unanswered question: latched, cancelled, and only then the turn stopped, if there is one. */
  ghost predicate GivesUp(id: string, es: seq<Effect>) {
    && [LatchUnanswered, SendResponse(id, ElicitationCancel)] <= es
    && (es[2..] == [] || es[2..] == [CancelTurn])
  }

  /** Everything done for one request, given the viewer's answer to it, if there is one. */
  ghost predicate Answers(req: Request, answer: Option<Body>, es: seq<Effect>) {
    match req.kind
    case Unsupported => es == [SendResponse(req.id, MethodNotFound)]
    case RequestPermission(None) => es == [SendResponse(req.id, PermissionCancelled)]
    case RequestPermission(Some(options)) =>
      if answer.Some? then es == [SendResponse(req.id, Relayed(answer.value))]
      else |es| == 1 && es[0].SendResponse? && es[0].id == req.id && Denies(options, es[0].reply)
    case CreateElicitation =>
      if answer.Some? then es == [SendResponse(req.id, Relayed(answer.value))] else GivesUp(req.id, es)
  }

  function Given(outcome: Relay.Outcome): Option<Body> {
    if outcome.Answered? then Some(outcome.result) else None
  }

  /** What a request's goroutine sets out to do, given what the relay returned for it. */
  function Script(req: Request, outcome: Relay.Outcome): seq<Effect> {
    match req.kind
    case Unsupported => [SendResponse(req.id, MethodNotFound)]
    case RequestPermission(None) => [SendResponse(req.id, PermissionCancelled)]
    case RequestPermission(Some(options)) =>
      if outcome.Answered? then [SendResponse(req.id, Relayed(outcome.result))]
      else [SendResponse(req.id, Denial(options))]
    case CreateElicitation =>
      if outcome.Answered? then [SendResponse(req.id, Relayed(outcome.result))]
      else [LatchUnanswered, SendResponse(req.id, ElicitationCancel), CancelTurn]
  }

  /** Without a session there is no turn to cancel. */
  predicate Skipped(e: Effect, hasSession: bool) {
    e.CancelTurn? && !hasSession
  }

  /** What is left of a script when it runs in one go. */
  function Performed(script: seq<Effect>, hasSession: bool): seq<Effect> {
    if script != [] && Skipped(script[|script| - 1], hasSession) then script[..|script| - 1] else script
  }

  /** The outcome the client acts on: the relay is only asked once it is installed. */
  function Consulted(forwarder: bool, relayed: Relay.Outcome): Relay.Outcome {
    if forwarder then relayed else Relay.NoViewers
  }

  /** A script run in one go answers its request. */
  lemma PerformedAnswers(req: Request, outcome: Relay.Outcome, hasSession: bool)
    ensures var es := Performed(Script(req, outcome), hasSession);
      Answers(req, Given(outcome), es) && (CancelTurn in es <==> hasSession && LatchUnanswered in es)
  {
    if req.kind.RequestPermission? && req.kind.options.Some? { DenialDenies(req.kind.options.value); }
  }

  class SessionClient {
    var hitlUnanswered: bool
    var forwarder: bool          // a viewer relay is installed
    var hasSession: bool
    var effects: seq<Effect>     // everything this client did, in order

    constructor ()
      ensures !hitlUnanswered && !forwarder && !hasSession && effects == []
    {
      hitlUnanswered, forwarder, hasSession, effects := false, false, false, [];
    }

    method SetPermissionForwarder()
      modifies this`forwarder
      ensures forwarder
    {
      forwarder := true;
    }

    method StoreSession()
      modifies this`hasSession
      ensures hasSession
    {
      hasSession := true;
    }

    method Respond(id: string, reply: Reply)
      modifies this`effects
      ensures effects == old(effects) + [SendResponse(id, reply)]
    {
      effects := effects + [SendResponse(id, reply)];
    }

    method CancelTheTurn()
      modifies this`effects
      ensures effects == old(effects) + if hasSession then [CancelTurn] else []
    {
      if !hasSession { return; }
      effects := effects + [CancelTurn];
    }

    /** answerAgentRequest; `relayed` is what the relay answers, if it is asked. */
    method AnswerAgentRequest(req: Request, relayed: Relay.Outcome)
      modifies this`hitlUnanswered, this`effects
      ensures old(effects) <= effects
      ensures var es := effects[|old(effects)|..];
        && Answers(req, if forwarder then Given(relayed) else None, es)
        && (CancelTurn in es <==> hasSession && LatchUnanswered in es)
        && (hitlUnanswered <==> old(hitlUnanswered) || LatchUnanswered in es)
      ensures var script := Script(req, Consulted(forwarder, relayed));
        && effects == old(effects) + Performed(script, hasSession)
        && hitlUnanswered == (old(hitlUnanswered) || LatchUnanswered in script)
    {
      if req.kind.CreateElicitation? {
        AnswerElicitation(req, relayed);
      } else if req.kind.Unsupported? {
        Respond(req.id, MethodNotFound);
      } else if req.kind.options.None? {
        Respond(req.id, PermissionCancelled);
      } else {
        AnswerPermission(req, req.kind.options.value, relayed);
      }
      PerformedAnswers(req, Consulted(forwarder, relayed), hasSession);
    }

    /** The permission branch: a viewer's answer, or the first one-shot rejection on offer. */
    method AnswerPermission(req: Request, options: seq<PermissionOption>, relayed: Relay.Outcome)
      requires req.kind == RequestPermission(Some(options))
      modifies this`effects
      ensures effects == old(effects) + Script(req, Consulted(forwarder, relayed))
    {
      if forwarder && relayed.Answered? {
        Respond(req.id, Relayed(relayed.result));
        return;
      }
      var reply := PermissionCancelled;
      for i := 0 to |options|
        invariant reply == PermissionCancelled
        invariant Denial(options) == Denial(options[i..])
      {
        if options[i].policy == REJECT_ONCE {
          reply := PermissionSelected(options[i].optionId);
          break;
        }
      }
      Respond(req.id, reply);
    }

    method AnswerElicitation(req: Request, relayed: Relay.Outcome)
      requires req.kind.CreateElicitation?
      modifies this`hitlUnanswered, this`effects
      ensures var script := Script(req, Consulted(forwarder, relayed));
        && effects == old(effects) + Performed(script, hasSession)
        && hitlUnanswered == (old(hitlUnanswered) || LatchUnanswered in script)
    {
      if forwarder && relayed.Answered? {
        Respond(req.id, Relayed(relayed.result));
        return;
      }
      hitlUnanswered := true;
      effects := effects + [LatchUnanswered];
      Respond(req.id, ElicitationCancel);
      CancelTheTurn();
    }
  }

  // ---------------------------------------------------------------- what a script may contain

  predicate IsReply(e: Effect) {
    e.SendResponse?
  }

  ghost predicate AtMostOneReply(es: seq<Effect>) {
    forall i, j :: 0 <= i < |es| && 0 <= j < |es| && IsReply(es[i]) && IsReply(es[j]) ==> i == j
  }

  ghost predicate ExactlyOneReply(es: seq<Effect>) {
    AtMostOneReply(es) && exists i :: 0 <= i < |es| && IsReply(es[i])
  }

  /** No reply grants anything a viewer did not grant. */
  ghost predicate Allowed(req: Request, outcome: Relay.Outcome, r: Reply) {
    match req.kind
    case Unsupported => r == MethodNotFound
    case RequestPermission(options) =>
      || r == PermissionCancelled
      || (options.Some? && r.PermissionSelected? &&
            exists o :: o in options.value && o.policy == REJECT_ONCE && o.optionId == r.optionId)
      || (options.Some? && outcome.Answered? && r == Relayed(outcome.result))
    case CreateElicitation =>
      r == ElicitationCancel || (outcome.Answered? && r == Relayed(outcome.result))
  }

  lemma ScriptFailsClosed(req: Request, outcome: Relay.Outcome)
    ensures var es := Script(req, outcome);
      && ExactlyOneReply(es)
      && (forall i :: 0 <= i < |es| && IsReply(es[i]) ==> es[i].id == req.id && Allowed(req, outcome, es[i].reply))
      && (forall i :: 0 <= i < |es| && IsReply(es[i]) && es[i].reply == ElicitationCancel ==>
            exists j :: 0 <= j < i && es[j] == LatchUnanswered)
      && (forall i :: 0 <= i < |es| && es[i] == CancelTurn ==>
            exists j :: 0 <= j < i && es[j] == SendResponse(req.id, ElicitationCancel))
  {
    var es := Script(req, outcome);
    if req.kind.CreateElicitation? && !outcome.Answered? {
      assert es[0] == LatchUnanswered && es[1] == SendResponse(req.id, ElicitationCancel);
      assert es[2] == CancelTurn;
      assert IsReply(es[1]) && forall i :: 0 <= i < |es| && IsReply(es[i]) ==> i == 1;
    } else {
      assert IsReply(es[0]) && |es| == 1;
    }
  }

  // ---------------------------------------------------------------- requests and relay together

  datatype Progress =
    | Dispatched                            // the goroutine is about to look at the request
    | Waiting(ask: Relay.AskId)             // inside the relay
    | Decided(outcome: Relay.Outcome, asked: Option<Relay.AskId>, did: nat)   // `did` effects of its script so far

  datatype Handler = Handler(req: Request, at: Progress)

  datatype State = State(
    relay: Relay.State,
    forwarder: bool,                        // a viewer relay is installed by now
    hasSession: bool,                       // ... and a session created
    handlers: map<nat, Handler>,            // one per dispatched request
    log: seq<(nat, Effect)>)                // whose effect, in order

  datatype Step =
    | RelayStep(t: Relay.Step)
    | InstallForwarder
    | CreateSession
    | Dispatch(h: nat, req: Request)
    | Begin(h: nat)
    | Resume(h: nat)
    | Act(h: nat)

  const INITIAL := State(Relay.INITIAL, false, false, map[], [])

  function PrefixOf(m: Kind): Relay.Prefix {
    if m.CreateElicitation? then Relay.Kask else Relay.Kperm
  }

  predicate Enabled(s: State, t: Step) {
    match t
    case RelayStep(r) => Relay.Enabled(s.relay, r)
    case InstallForwarder => true
    case CreateSession => true
    case Dispatch(h, _) => h !in s.handlers
    case Begin(h) => h in s.handlers && s.handlers[h].at == Dispatched
    case Resume(h) =>
      && h in s.handlers && s.handlers[h].at.Waiting?
      && s.handlers[h].at.ask in s.relay.asks && s.relay.asks[s.handlers[h].at.ask].Returned?
    case Act(h) =>
      && h in s.handlers && s.handlers[h].at.Decided?
      && s.handlers[h].at.did < |Script(s.handlers[h].req, s.handlers[h].at.outcome)|
  }

  function Next(s: State, t: Step): State
    requires Enabled(s, t)
  {
    match t
    case RelayStep(r) => s.(relay := Relay.Next(s.relay, r))
    case InstallForwarder => s.(forwarder := true)
    case CreateSession => s.(hasSession := true)
    case Dispatch(h, req) => s.(handlers := s.handlers[h := Handler(req, Dispatched)])
    case Begin(h) =>
      var hd := s.handlers[h];
      if s.forwarder && Forwards(hd.req.kind) then
        var prefix := PrefixOf(hd.req.kind);
        var id := Relay.AskId(prefix, s.relay.sh.permSeq + 1);
        s.(relay := Relay.Next(s.relay, Relay.Allocate(prefix)), handlers := s.handlers[h := hd.(at := Waiting(id))])
      else s.(handlers := s.handlers[h := hd.(at := Decided(Relay.NoViewers, None, 0))])
    case Resume(h) =>
      var hd := s.handlers[h];
      s.(handlers := s.handlers[h := hd.(at := Decided(s.relay.asks[hd.at.ask].outcome, Some(hd.at.ask), 0))])
    case Act(h) =>
      var hd := s.handlers[h];
      var did := hd.at.did;
      var e := Script(hd.req, hd.at.outcome)[did];
      s.(handlers := s.handlers[h := hd.(at := hd.at.(did := did + 1))],
         log := if Skipped(e, s.hasSession) then s.log else s.log + [(h, e)])
  }

  predicate Legal(s: State, ts: seq<Step>)
    decreases |ts|
  {
    ts == [] || (Enabled(s, ts[0]) && Legal(Next(s, ts[0]), ts[1..]))
  }

  function After(s: State, ts: seq<Step>): State
    requires Legal(s, ts)
    decreases |ts|
  {
    if ts == [] then s else After(Next(s, ts[0]), ts[1..])
  }

  /** One handler's effects, in order. */
  function Effects(log: seq<(nat, Effect)>, h: nat): seq<Effect> {
    if log == [] then []
    else Effects(log[..|log| - 1], h) + if log[|log| - 1].0 == h then [log[|log| - 1].1] else []
  }

  lemma EffectsSnoc(log: seq<(nat, Effect)>, h: nat, e: (nat, Effect))
    ensures Effects(log + [e], h) == Effects(log, h) + if e.0 == h then [e.1] else []
  {
    assert (log + [e])[..|log|] == log;
  }

  /** A handler has done exactly a prefix of its script, and an answered outcome was committed by a viewer. */
  ghost predicate HandlerSound(s: State, h: nat) {
    h in s.handlers ==>
      match s.handlers[h].at
      case Dispatched => Effects(s.log, h) == []
      case Waiting(ask) => Effects(s.log, h) == [] && AskedUnder(s, s.handlers[h].req.kind, ask)
      case Decided(o, asked, did) =>
        var script := Script(s.handlers[h].req, o);
        && did <= |script| && DidSoFar(script, did, Effects(s.log, h))
        && (if asked.Some? then AskedUnder(s, s.handlers[h].req.kind, asked.value)
                                && s.relay.asks[asked.value] == Relay.Returned(o)
            else o.NoViewers?)
        && (o.Answered? ==> CommittedFor(s.relay, asked, o.result))
  }

  /** The ask a request was forwarded under is one of its own sort. */
  predicate AskedUnder(s: State, m: Kind, ask: Relay.AskId) {
    Forwards(m) && ask in s.relay.asks && (ask.prefix.Kask? <==> m.CreateElicitation?)
  }

  /** All of it, except that a turn was perhaps not there to be cancelled. */
  predicate DidSoFar(script: seq<Effect>, did: nat, es: seq<Effect>)
    requires did <= |script|
  {
    es == script[..did] || (did > 0 && script[did - 1].CancelTurn? && es == script[..did - 1])
  }

  /** A viewer's answer to this very ask. */
  predicate CommittedFor(r: Relay.State, asked: Option<Relay.AskId>, result: Body) {
    asked.Some? && asked.value in r.committed && r.committed[asked.value] == result
  }

  /** The ask a request was forwarded under. */
  function OwnAsk(s: State, h: nat): Option<Relay.AskId> {
    if h !in s.handlers then None
    else match s.handlers[h].at
      case Dispatched => None
      case Waiting(ask) => Some(ask)
      case Decided(_, asked, _) => asked
  }

  /** No two requests share an ask. */
  ghost predicate AsksDistinct(s: State) {
    forall g, h :: g != h && OwnAsk(s, g).Some? ==> OwnAsk(s, h) != OwnAsk(s, g)
  }

  ghost predicate Inv(s: State) {
    && Relay.Inv(s.relay) && AsksDistinct(s)
    && (forall h :: HandlerSound(s, h))
    && (forall h :: h !in s.handlers ==> Effects(s.log, h) == [])
  }

  lemma RelayKeepsCommitted(r: Relay.State, t: Relay.Step)
    requires Relay.Inv(r) && Relay.Enabled(r, t)
    ensures Relay.Inv(Relay.Next(r, t))
    ensures r.asks.Keys <= Relay.Next(r, t).asks.Keys
    ensures forall ask, b :: CommittedFor(r, ask, b) ==> CommittedFor(Relay.Next(r, t), ask, b)
    ensures forall ask :: ask in r.asks && r.asks[ask].Returned? ==> Relay.Next(r, t).asks[ask] == r.asks[ask]
  {
    Relay.StepKeepsInv(r, t);
    Relay.StepKeepsAnswers(r, t);
  }

  /** Only the last effect of a script can be skipped. */
  lemma DidOneMore(req: Request, o: Relay.Outcome, did: nat, es: seq<Effect>, hasSession: bool)
    requires did < |Script(req, o)| && DidSoFar(Script(req, o), did, es)
    ensures var e := Script(req, o)[did];
      DidSoFar(Script(req, o), did + 1, if Skipped(e, hasSession) then es else es + [e])
  {
    var script := Script(req, o);
    assert did > 0 ==> !script[did - 1].CancelTurn?;
    assert script[..did + 1] == script[..did] + [script[did]];
  }

  lemma ActLogs(s: State, h: nat, g: nat)
    requires Enabled(s, Act(h))
    ensures var e := Script(s.handlers[h].req, s.handlers[h].at.outcome)[s.handlers[h].at.did];
      Effects(Next(s, Act(h)).log, g) ==
        if g == h && !Skipped(e, s.hasSession) then Effects(s.log, g) + [e] else Effects(s.log, g)
  {
    var s' := Next(s, Act(h));
    if s'.log != s.log { EffectsSnoc(s.log, g, s'.log[|s.log|]); }
  }

  lemma ActKeepsInv(s: State, h: nat)
    requires Inv(s) && Enabled(s, Act(h))
    ensures Inv(Next(s, Act(h)))
  {
    var s' := Next(s, Act(h));
    forall g ensures HandlerSound(s', g) && (g !in s'.handlers ==> Effects(s'.log, g) == []) {
      ActLogs(s, h, g);
      assert HandlerSound(s, g);
      if g == h {
        DidOneMore(s.handlers[h].req, s.handlers[h].at.outcome, s.handlers[h].at.did, Effects(s.log, h), s.hasSession);
      }
    }
    assert forall g :: OwnAsk(s', g) == OwnAsk(s, g);
  }

  /** A relay step keeps every handler's claim on the relay. */
  lemma RelayKeepsSound(s: State, t: Relay.Step)
    requires Inv(s) && Relay.Enabled(s.relay, t)
    ensures Inv(s.(relay := Relay.Next(s.relay, t)))
  {
    var s' := s.(relay := Relay.Next(s.relay, t));
    RelayKeepsCommitted(s.relay, t);
    forall g ensures HandlerSound(s', g) { assert HandlerSound(s, g); }
    assert forall g :: OwnAsk(s', g) == OwnAsk(s, g);
  }

  /** Moving one handler on leaves the others' claims as they were. */
  lemma HandlerMoves(s: State, h: nat, hd: Handler)
    requires Inv(s) && HandlerSound(s.(handlers := s.handlers[h := hd]), h)
    requires var own := OwnAsk(s.(handlers := s.handlers[h := hd]), h);
      own.Some? ==> forall g :: g != h ==> OwnAsk(s, g) != own
    ensures Inv(s.(handlers := s.handlers[h := hd]))
  {
    var s' := s.(handlers := s.handlers[h := hd]);
    forall g ensures HandlerSound(s', g) { assert HandlerSound(s, g); }
    assert forall g :: g != h ==> OwnAsk(s', g) == OwnAsk(s, g);
  }

  lemma NewAskIsUnowned(s: State, ask: Relay.AskId)
    requires Inv(s) && ask.n == s.relay.sh.permSeq + 1
    ensures forall g :: OwnAsk(s, g) != Some(ask)
  {
    forall g ensures OwnAsk(s, g) != Some(ask) { assert HandlerSound(s, g); }
  }

  lemma BeginKeepsInv(s: State, h: nat)
    requires Inv(s) && Enabled(s, Begin(h))
    ensures Inv(Next(s, Begin(h)))
  {
    var s' := Next(s, Begin(h));
    assert HandlerSound(s, h);
    if s.forwarder && Forwards(s.handlers[h].req.kind) {
      RelayKeepsSound(s, Relay.Allocate(PrefixOf(s.handlers[h].req.kind)));
      NewAskIsUnowned(s, s'.handlers[h].at.ask);
      assert forall g :: OwnAsk(s.(relay := s'.relay), g) == OwnAsk(s, g);
    }
    HandlerMoves(s.(relay := s'.relay), h, s'.handlers[h]);
  }

  lemma SetupKeepsInv(s: State, s': State)
    requires Inv(s) && s' == s.(forwarder := s'.forwarder, hasSession := s'.hasSession)
    ensures Inv(s')
  {
    forall g ensures HandlerSound(s', g) { assert HandlerSound(s, g); }
    assert forall g :: OwnAsk(s', g) == OwnAsk(s, g);
  }

  lemma StepKeepsInv(s: State, t: Step)
    requires Inv(s) && Enabled(s, t)
    ensures Inv(Next(s, t))
  {
    match t {
      case Act(h) => ActKeepsInv(s, h);
      case RelayStep(r) => RelayKeepsSound(s, r);
      case InstallForwarder => SetupKeepsInv(s, Next(s, t));
      case CreateSession => SetupKeepsInv(s, Next(s, t));
      case Begin(h) => BeginKeepsInv(s, h);
      case Resume(h) =>
        assert HandlerSound(s, h) && Relay.AskSound(s.relay, s.handlers[h].at.ask);
        assert OwnAsk(s, h) == Some(s.handlers[h].at.ask) && forall g :: g != h ==> OwnAsk(s, g) != OwnAsk(s, h);
        HandlerMoves(s, h, Next(s, t).handlers[h]);
      case Dispatch(h, req) => HandlerMoves(s, h, Handler(req, Dispatched));
    }
  }

  lemma {:induction false} RunKeepsInv(s: State, ts: seq<Step>)
    requires Inv(s) && Legal(s, ts)
    ensures Inv(After(s, ts))
    decreases |ts|
  {
    if ts != [] {
      StepKeepsInv(s, ts[0]);
      RunKeepsInv(Next(s, ts[0]), ts[1..]);
    }
  }

  /** What was done so far on behalf of one request. */
  ghost predicate FailsClosed(s: State, h: nat)
    requires h in s.handlers
  {
    var req, asked, es := s.handlers[h].req, OwnAsk(s, h), Effects(s.log, h);
    && AtMostOneReply(es)
    && (forall i :: 0 <= i < |es| && IsReply(es[i]) ==> ReplyFailsClosed(s, req, asked, es[i]) && LatchedFirst(es, i))
    && (forall i :: 0 <= i < |es| && es[i] == CancelTurn ==> CancelledAfterReply(req, es, i))
  }

  /** A reply carries its request's id and grants nothing but what a viewer committed for this request's own ask. */
  ghost predicate ReplyFailsClosed(s: State, req: Request, asked: Option<Relay.AskId>, e: Effect)
    requires IsReply(e)
  {
    && e.id == req.id
    && (e.reply.Relayed? ==> Forwards(req.kind) && CommittedFor(s.relay, asked, e.reply.result))
    && (e.reply.PermissionSelected? ==>
          req.kind.RequestPermission? && req.kind.options.Some? &&
          exists o :: o in req.kind.options.value && o.policy == REJECT_ONCE && o.optionId == e.reply.optionId)
  }

  ghost predicate LatchedFirst(es: seq<Effect>, i: nat)
    requires i < |es| && IsReply(es[i])
  {
    es[i].reply == ElicitationCancel ==> exists j :: 0 <= j < i && es[j] == LatchUnanswered
  }

  ghost predicate CancelledAfterReply(req: Request, es: seq<Effect>, i: nat)
    requires i < |es|
  {
    exists j :: 0 <= j < i && es[j] == SendResponse(req.id, ElicitationCancel)
  }

  lemma PrefixFailsClosed(s: State, req: Request, asked: Option<Relay.AskId>, o: Relay.Outcome, did: nat, es: seq<Effect>)
    requires did <= |Script(req, o)| && (o.Answered? ==> CommittedFor(s.relay, asked, o.result))
    requires DidSoFar(Script(req, o), did, es)
    ensures AtMostOneReply(es)
    ensures forall i :: 0 <= i < |es| && IsReply(es[i]) ==> ReplyFailsClosed(s, req, asked, es[i]) && LatchedFirst(es, i)
    ensures forall i :: 0 <= i < |es| && es[i] == CancelTurn ==> CancelledAfterReply(req, es, i)
  {
    var script := Script(req, o);
    ScriptFailsClosed(req, o);
    assert forall i :: 0 <= i < |es| ==> es[i] == script[i];
    forall i | 0 <= i < |es| && IsReply(es[i]) ensures ReplyFailsClosed(s, req, asked, es[i]) && LatchedFirst(es, i) {
      if es[i].reply == ElicitationCancel {
        var j :| 0 <= j < i && script[j] == LatchUnanswered;
        assert es[j] == script[j];
      }
    }
    forall i | 0 <= i < |es| && es[i] == CancelTurn ensures CancelledAfterReply(req, es, i) {
      var j :| 0 <= j < i && script[j] == SendResponse(req.id, ElicitationCancel);
      assert es[j] == script[j];
    }
  }

  /**
   In every interleaving, whenever the relay is installed and the session created, every request is
   answered fail-closed: nothing is granted but what a viewer committed.
   */
  lemma EveryRequestFailsClosed(ts: seq<Step>, h: nat)
    requires Legal(INITIAL, ts) && h in After(INITIAL, ts).handlers
    ensures FailsClosed(After(INITIAL, ts), h)
    ensures AsksDistinct(After(INITIAL, ts))
  {
    RunKeepsInv(INITIAL, ts);
    var s := After(INITIAL, ts);
    assert HandlerSound(s, h);
    if s.handlers[h].at.Decided? {
      var at := s.handlers[h].at;
      PrefixFailsClosed(s, s.handlers[h].req, at.asked, at.outcome, at.did, Effects(s.log, h));
    }
  }

  // ---------------------------------------------------------------- what a finished request got

  /** What the relay returned for a request's own ask. */
  function OwnAnswer(s: State, h: nat): Option<Body> {
    var own := OwnAsk(s, h);
    if own.Some? && own.value in s.relay.asks && s.relay.asks[own.value].Returned?
    then Given(s.relay.asks[own.value].outcome) else None
  }

  lemma DoneAnswers(req: Request, o: Relay.Outcome, es: seq<Effect>)
    requires DidSoFar(Script(req, o), |Script(req, o)|, es)
    ensures Answers(req, Given(o), es)
  {
    var script := Script(req, o);
    assert script[..|script|] == script;
    if req.kind.RequestPermission? && req.kind.options.Some? { DenialDenies(req.kind.options.value); }
  }

  /**
   In every interleaving, a finished request got exactly what it was owed: the answer its own ask
   returned, verbatim and alone, which is what a viewer committed for it; else the headless answer.
   */
  lemma FinishedIsAnswered(ts: seq<Step>, h: nat)
    requires Legal(INITIAL, ts) && Finished(After(INITIAL, ts), h)
    ensures var s := After(INITIAL, ts);
      && Answers(s.handlers[h].req, OwnAnswer(s, h), Effects(s.log, h))
      && (OwnAnswer(s, h).Some? ==> CommittedFor(s.relay, OwnAsk(s, h), OwnAnswer(s, h).value))
      && (OwnAsk(s, h).Some? ==> OwnAsk(s, h).value in s.relay.asks && s.relay.asks[OwnAsk(s, h).value].Returned?)
  {
    RunKeepsInv(INITIAL, ts);
    var s := After(INITIAL, ts);
    assert HandlerSound(s, h);
    DoneAnswers(s.handlers[h].req, s.handlers[h].at.outcome, Effects(s.log, h));
  }

  /** The relay is there once it has been installed, and so is the session. */
  lemma {:induction false} InstalledSince(ts: seq<Step>)
    requires Legal(INITIAL, ts)
    ensures After(INITIAL, ts).forwarder <==> InstallForwarder in ts
    ensures After(INITIAL, ts).hasSession <==> CreateSession in ts
    decreases |ts|
  {
    if ts != [] {
      var front, t := ts[..|ts| - 1], ts[|ts| - 1];
      assert ts == front + [t];
      AfterSnoc(INITIAL, front, t);
      InstalledSince(front);
    }
  }

  lemma {:induction false} AfterSnoc(s: State, ts: seq<Step>, t: Step)
    requires Legal(s, ts + [t])
    ensures Legal(s, ts) && Enabled(After(s, ts), t) && After(s, ts + [t]) == Next(After(s, ts), t)
    decreases |ts|
  {
    if ts == [] {
      assert [t][1..] == [] && ts + [t] == [t];
    } else {
      assert (ts + [t])[1..] == ts[1..] + [t];
      AfterSnoc(Next(s, ts[0]), ts[1..], t);
    }
  }

  /** Not through with its script, or the turn was cancelled if the script says so. */
  predicate WillCancel(s: State, h: nat) {
    h in s.handlers && s.handlers[h].at.Decided? ==>
      var script := Script(s.handlers[h].req, s.handlers[h].at.outcome);
      s.handlers[h].at.did == |script| && CancelTurn in script ==> CancelTurn in Effects(s.log, h)
  }

  lemma StepKeepsCancel(s: State, t: Step, h: nat)
    requires Inv(s) && Enabled(s, t) && s.hasSession && WillCancel(s, h)
    ensures Next(s, t).hasSession && WillCancel(Next(s, t), h)
  {
    if t.Act? {
      ActLogs(s, t.h, h);
      if t.h == h { CancelIsLast(s.handlers[h].req, s.handlers[h].at.outcome); }
    } else {
      assert Next(s, t).log == s.log;
    }
  }

  lemma CancelIsLast(req: Request, o: Relay.Outcome)
    ensures var script := Script(req, o);
      script != [] && (CancelTurn in script ==> script[|script| - 1] == CancelTurn)
  {
  }

  /** Once there is a session, an unanswered question stops the turn. */
  lemma {:induction false} SessionIsCancelled(s: State, ts: seq<Step>, h: nat)
    requires Inv(s) && s.hasSession && WillCancel(s, h) && Legal(s, ts)
    ensures WillCancel(After(s, ts), h)
    decreases |ts|
  {
    if ts != [] {
      StepKeepsCancel(s, ts[0], h);
      StepKeepsInv(s, ts[0]);
      SessionIsCancelled(Next(s, ts[0]), ts[1..], h);
    }
  }

  /** Not begun yet, or asked if it is a request to ask about. */
  predicate WillAsk(s: State, h: nat) {
    h in s.handlers && !s.handlers[h].at.Dispatched? && Forwards(s.handlers[h].req.kind) ==> OwnAsk(s, h).Some?
  }

  /** Whatever begins once the relay is installed is offered to it. */
  lemma {:induction false} InstalledIsConsulted(s: State, ts: seq<Step>, h: nat)
    requires s.forwarder && WillAsk(s, h) && Legal(s, ts)
    ensures After(s, ts).forwarder && WillAsk(After(s, ts), h)
    decreases |ts|
  {
    if ts != [] {
      InstalledIsConsulted(Next(s, ts[0]), ts[1..], h);
    }
  }

  // ---------------------------------------------------------------- no request is left hanging

  predicate Finished(s: State, h: nat) {
    && h in s.handlers && s.handlers[h].at.Decided?
    && s.handlers[h].at.did == |Script(s.handlers[h].req, s.handlers[h].at.outcome)|
  }

  function AskRank(a: Relay.Ask): nat {
    match a
    case Allocated => 5
    case Parked => 4
    case Expiring => 3
    case Closing(_) => 2
    case Returned(_) => 1
  }

  /** Steps a request still needs, with nothing but its own goroutine and its timer. */
  function Rank(s: State, h: nat): nat
    requires Inv(s) && h in s.handlers
  {
    assert HandlerSound(s, h);
    match s.handlers[h].at
    case Dispatched => 9
    case Waiting(ask) => 3 + AskRank(s.relay.asks[ask])
    case Decided(o, _, did) => |Script(s.handlers[h].req, o)| - did
  }

  /** The relay step an ask's own goroutine (or its timer) takes next. */
  function AskStep(r: Relay.State, ask: Relay.AskId): Relay.Step
    requires ask in r.asks && !r.asks[ask].Returned?
  {
    match r.asks[ask]
    case Allocated => Relay.Register(ask, "")
    case Parked => Relay.TimerFires(ask)
    case Expiring => Relay.GiveUp(ask)
    case Closing(_) => Relay.CleanUp(ask)
  }

  lemma AskStepAdvances(r: Relay.State, ask: Relay.AskId)
    requires ask in r.asks && !r.asks[ask].Returned?
    ensures Relay.Enabled(r, AskStep(r, ask))
    ensures ask in Relay.Next(r, AskStep(r, ask)).asks
    ensures AskRank(Relay.Next(r, AskStep(r, ask)).asks[ask]) < AskRank(r.asks[ask])
  {
  }

  function OwnStep(s: State, h: nat): Step
    requires Inv(s) && h in s.handlers
  {
    assert HandlerSound(s, h);
    match s.handlers[h].at
    case Dispatched => Begin(h)
    case Decided(_, _, _) => Act(h)
    case Waiting(ask) =>
      if s.relay.asks[ask].Returned? then Resume(h) else RelayStep(AskStep(s.relay, ask))
  }

  lemma OwnStepAdvances(s: State, h: nat)
    requires Inv(s) && h in s.handlers && !Finished(s, h)
    ensures Enabled(s, OwnStep(s, h))
    ensures Inv(Next(s, OwnStep(s, h))) && h in Next(s, OwnStep(s, h)).handlers
    ensures Rank(Next(s, OwnStep(s, h)), h) < Rank(s, h)
  {
    assert HandlerSound(s, h);
    var at := s.handlers[h].at;
    if at.Waiting? && !s.relay.asks[at.ask].Returned? {
      RelayOwnStepAdvances(s, h, at.ask);
    } else {
      StepKeepsInv(s, OwnStep(s, h));
      assert HandlerSound(Next(s, OwnStep(s, h)), h);
      if at.Dispatched? { BeginAdvances(s, h); }
    }
  }

  lemma RelayOwnStepAdvances(s: State, h: nat, ask: Relay.AskId)
    requires Inv(s) && h in s.handlers && s.handlers[h].at == Waiting(ask)
    requires ask in s.relay.asks && !s.relay.asks[ask].Returned?
    ensures var t := RelayStep(AskStep(s.relay, ask));
      Enabled(s, t) && Inv(Next(s, t)) && Next(s, t).handlers == s.handlers && Rank(Next(s, t), h) < Rank(s, h)
  {
    AskStepAdvances(s.relay, ask);
    StepKeepsInv(s, RelayStep(AskStep(s.relay, ask)));
  }

  lemma BeginAdvances(s: State, h: nat)
    requires Inv(s) && Enabled(s, Begin(h)) && Inv(Next(s, Begin(h)))
    ensures Rank(Next(s, Begin(h)), h) < Rank(s, h)
  {
    var s' := Next(s, Begin(h));
    assert HandlerSound(s', h);
    if s'.handlers[h].at.Waiting? {
      assert s'.relay.asks[s'.handlers[h].at.ask] == Relay.Allocated;
    }
  }

  lemma DoneRepliesOnce(req: Request, o: Relay.Outcome, es: seq<Effect>)
    requires DidSoFar(Script(req, o), |Script(req, o)|, es)
    ensures ExactlyOneReply(es)
  {
    var script := Script(req, o);
    assert script[..|script|] == script;
    ScriptFailsClosed(req, o);
    var i :| 0 <= i < |script| && IsReply(script[i]);
    assert es[i] == script[i] && forall j :: 0 <= j < |es| ==> es[j] == script[j];
  }

  /** From any reachable point, a request's own goroutine and timer suffice to reply to it, exactly once. */
  lemma {:induction false} EveryRequestCanFinish(s: State, h: nat) returns (ts: seq<Step>)
    requires Inv(s) && h in s.handlers
    ensures Legal(s, ts) && Inv(After(s, ts)) && Finished(After(s, ts), h)
    ensures ExactlyOneReply(Effects(After(s, ts).log, h))
    decreases Rank(s, h)
  {
    if Finished(s, h) {
      ts := [];
      assert HandlerSound(s, h);
      DoneRepliesOnce(s.handlers[h].req, s.handlers[h].at.outcome, Effects(s.log, h));
    } else {
      OwnStepAdvances(s, h);
      var t := OwnStep(s, h);
      ts := EveryRequestCanFinish(Next(s, t), h);
      ts := [t] + ts;
      assert ts[1..] == ts[1..];
    }
  }

  // ---------------------------------------------------------------- a viewer can answer

  lemma {:induction false} RelayRun(s: State, rs: seq<Relay.Step>) returns (ts: seq<Step>)
    requires Relay.Legal(s.relay, rs)
    ensures Legal(s, ts) && After(s, ts) == s.(relay := Relay.After(s.relay, rs))
    decreases |rs|
  {
    if rs == [] {
      ts := [];
    } else {
      ts := RelayRun(Next(s, RelayStep(rs[0])), rs[1..]);
      ts := [RelayStep(rs[0])] + ts;
      assert ts[1..] == ts[1..];
    }
  }

  lemma {:induction false} Concat(s: State, a: seq<Step>, b: seq<Step>)
    requires Legal(s, a) && Legal(After(s, a), b)
    ensures Legal(s, a + b) && After(s, a + b) == After(After(s, a), b)
    decreases |a|
  {
    if a == [] {
      assert a + b == b;
    } else {
      assert (a + b)[1..] == a[1..] + b;
      Concat(Next(s, a[0]), a[1..], b);
    }
  }

  lemma {:induction false} Unfold(s: State, t: Step, ts: seq<Step>)
    requires Enabled(s, t) && Legal(Next(s, t), ts)
    ensures Legal(s, [t] + ts) && After(s, [t] + ts) == After(Next(s, t), ts)
  {
    assert ([t] + ts)[1..] == ts;
  }

  lemma TwoSteps(s: State, t: Step, u: Step)
    requires Enabled(s, t) && Enabled(Next(s, t), u)
    ensures Legal(s, [t, u]) && After(s, [t, u]) == Next(Next(s, t), u)
  {
    Unfold(Next(s, t), u, []);
    Unfold(s, t, [u]);
    assert [t, u] == [t] + [u] && [u] + [] == [u];
  }

  /** Once its ask has returned a viewer's answer, two steps of its own relay it. */
  lemma RelaysAnswer(s: State, h: nat, result: Body)
    requires h in s.handlers && s.handlers[h].at.Waiting? && Forwards(s.handlers[h].req.kind) && Effects(s.log, h) == []
    requires var ask := s.handlers[h].at.ask; ask in s.relay.asks && s.relay.asks[ask] == Relay.Returned(Relay.Answered(result))
    ensures Legal(s, [Resume(h), Act(h)]) && Finished(After(s, [Resume(h), Act(h)]), h)
    ensures Effects(After(s, [Resume(h), Act(h)]).log, h) == [SendResponse(s.handlers[h].req.id, Relayed(result))]
  {
    var s1 := Next(s, Resume(h));
    assert Script(s.handlers[h].req, Relay.Answered(result)) == [SendResponse(s.handlers[h].req.id, Relayed(result))];
    var s2 := Next(s1, Act(h));
    ActLogs(s1, h, h);
    assert Finished(s2, h) && Effects(s2.log, h) == [SendResponse(s.handlers[h].req.id, Relayed(result))];
    TwoSteps(s, Resume(h), Act(h));
  }

  /** An installed relay is asked, under a new id. */
  lemma BeginAsks(s: State, h: nat)
    requires Inv(s) && s.forwarder && h in s.handlers && s.handlers[h].at.Dispatched? && Forwards(s.handlers[h].req.kind)
    ensures var s1 := Next(s, Begin(h));
      && Inv(s1) && h in s1.handlers && s1.handlers[h].at.Waiting? && s1.handlers[h].req == s.handlers[h].req
      && Effects(s1.log, h) == [] && s1.relay.sh == s.relay.sh.(permSeq := s.relay.sh.permSeq + 1)
      && s1.handlers[h].at.ask in s1.relay.asks && s1.relay.asks[s1.handlers[h].at.ask] == Relay.Allocated
  {
    StepKeepsInv(s, Begin(h));
    assert HandlerSound(s, h);
  }

  /**
   With the relay installed and a viewer paying attention, whatever that viewer answers can be what
   the agent gets.
   */
  lemma ViewerAnswersRequest(s: State, h: nat, frame: Body, result: Body) returns (ts: seq<Step>)
    requires Inv(s) && s.forwarder && h in s.handlers && s.handlers[h].at.Dispatched? && Forwards(s.handlers[h].req.kind)
    requires !s.relay.sh.stopped && s.relay.sh.viewers != {} && s.relay.sh.responsive
    ensures Legal(s, ts) && Finished(After(s, ts), h)
    ensures Effects(After(s, ts).log, h) == [SendResponse(s.handlers[h].req.id, Relayed(result))]
  {
    BeginAsks(s, h);
    var s1 := Next(s, Begin(h));
    ts := AnswerWaiting(s1, h, frame, result);
    ts := [Begin(h)] + ts;
    assert ts[1..] == ts[1..];
  }

  lemma AnswerWaiting(s: State, h: nat, frame: Body, result: Body) returns (ts: seq<Step>)
    requires Inv(s) && h in s.handlers && s.handlers[h].at.Waiting? && Effects(s.log, h) == []
    requires s.handlers[h].at.ask in s.relay.asks && s.relay.asks[s.handlers[h].at.ask] == Relay.Allocated
    requires !s.relay.sh.stopped && s.relay.sh.viewers != {} && s.relay.sh.responsive
    ensures Legal(s, ts) && Finished(After(s, ts), h)
    ensures Effects(After(s, ts).log, h) == [SendResponse(s.handlers[h].req.id, Relayed(result))]
  {
    var ask := s.handlers[h].at.ask;
    assert HandlerSound(s, h);
    Relay.ViewerCanAnswer(s.relay, ask, frame, result);
    ts := RelayRun(s, Relay.Answering(ask, frame, result));
    RelaysAnswer(After(s, ts), h, result);
    Concat(s, ts, [Resume(h), Act(h)]);
    ts := ts + [Resume(h), Act(h)];
  }
}
