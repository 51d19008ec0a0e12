/**
 The AgentRun phase machine (internal/controller/agentrun_controller.go).

 A reconcile reads the Agent, the Sandbox and its pod, may have a Sandbox created, computes a
 new status and patches it.  The patch may be lost; the Sandbox stays.  `Reconciled` is the
 value-level specification of one reconcile; `AgentRunObject.Reconcile` is the controller's own
 statement-by-statement form, proved against it.  The lemmas speak of every run: any sequence of
 observations, any subset of lost patches.
 */
module AgentRun {
  import opened Common

  datatype Phase = NoPhase | Pending | Running | Succeeded | Failed

  predicate Terminal(p: Phase) {
    p == Succeeded || p == Failed
  }

  function Rank(p: Phase): nat {
    match p
    case NoPhase => 0
    case Pending => 1
    case Running => 2
    case Succeeded => 3
    case Failed => 3
  }

  datatype Truth = True | False | Unknown

  datatype Waiting =
    | NotWaiting | OtherWaiting
    | ImagePullBackOff | InvalidImageName | CreateContainerConfigError | CrashLoopBackOff

  datatype Reason =
    | AgentNotFound | AgentNotReady
    | InvalidParams | InvalidGateway | InvalidFileMounts | FileMountSourceUnavailable | FileMountSourceNotFound
    | GatewayNotFound | SandboxCreationFailed | SandboxCreated | SandboxNotFound
    | PodNotRunning | PodRunning | StuckOn(waiting: Waiting) | StartupDeadlineExceeded
    | RunSucceeded | RunFailed | LimitReached

  /** The Succeeded condition: the single outcome signal a workflow sequences on. */
  datatype Condition = Condition(status: Truth, reason: Reason)

  datatype Status = Status(
    phase: Phase,
    succeeded: Option<Condition>,
    sandbox: bool,               // status.sandboxName is set
    start: Option<int>,
    completion: Option<int>,
    duration: Option<int>)

  const FRESH := Status(NoPhase, None, false, None, None, None)

  /** What the API server answers: the object, a NotFound, or some other error. */
  datatype Lookup<+T> = Found(value: T) | Missing | Unreadable

  /** The checks that run before a Sandbox exists, in the order the controller makes them. */
  datatype Preflight =
    | BadParams
    | BadGateway
    | BadFileMounts
    | SourceUnavailable     // retried
    | SourceNotFound        // retried
    | SourceInvalid
    | GatewayMissing        // retried
    | CreationFailed        // retried
    | CreationUnanswered    // the Sandbox now exists, but the answer was lost: retried
    | Passed                // the Sandbox now exists, or did already

  datatype FinishReason = PodSucceeded | OtherFinish

  datatype Sandbox = Sandbox(createdAt: int, finished: Option<FinishReason>)

  datatype Pod = Pod(
    running: bool,
    waiting: seq<Waiting>,       // one per container, init containers first
    agentExit: Option<int>,
    containerStart: Option<int>,
    accepted: Option<int>)

  datatype View = View(
    agent: Lookup<bool>,         // Found(ready)
    preflight: Preflight,
    sandbox: Lookup<Sandbox>,
    pod: Lookup<Pod>,
    now: int,
    deadline: Option<int>,
    ttl: Option<int>)

  datatype Outcome = NoWrite | Patch(status: Status) | Delete

  predicate FatalWaiting(w: Waiting) {
    w.ImagePullBackOff? || w.InvalidImageName? || w.CreateContainerConfigError? || w.CrashLoopBackOff?
  }

  /** The first waiting reason a pod cannot recover from. */
  function StartupProblem(waiting: seq<Waiting>): (r: Option<Waiting>)
    ensures r.Some? <==> exists i :: 0 <= i < |waiting| && FatalWaiting(waiting[i])
    ensures r.Some? ==> r.value in waiting && FatalWaiting(r.value)
  {
    if waiting == [] then None
    else if FatalWaiting(waiting[0]) then Some(waiting[0])
    else
      var rest := StartupProblem(waiting[1..]);
      assert waiting == [waiting[0]] + waiting[1..];
      rest
  }

  function PodStart(pod: Option<Pod>, fallback: int): int {
    if pod.Some? && pod.value.containerStart.Some? then pod.value.containerStart.value
    else if pod.Some? && pod.value.accepted.Some? then pod.value.accepted.value
    else fallback
  }

  function WithSucceeded(st: Status, truth: Truth, reason: Reason): Status {
    st.(succeeded := Some(Condition(truth, reason)))
  }

  function Fail(st: Status, reason: Reason): Status {
    WithSucceeded(st.(phase := Failed), False, reason)
  }

  function StampCompletion(st: Status, pod: Option<Pod>, sb: Sandbox, now: int): Status {
    var start := if st.start.Some? then st.start.value else PodStart(pod, sb.createdAt);
    st.(completion := Some(now), start := Some(start), duration := Some(now - start))
  }

  const EXIT_SUCCEEDED := 0
  const EXIT_LIMIT_REACHED := 2

  /** The terminal outcome: the agent container's exit code, else the Sandbox's coarse reason. */
  function TerminalOutcome(st: Status, exit: Option<int>, reason: FinishReason): Status {
    if exit == Some(EXIT_LIMIT_REACHED) then Fail(st, LimitReached)
    else if exit == Some(EXIT_SUCCEEDED) || (exit.None? && reason == PodSucceeded) then
      WithSucceeded(st.(phase := Succeeded), True, RunSucceeded)
    else Fail(st, RunFailed)
  }

  function FromSandbox(st: Status, sb: Sandbox, pod: Option<Pod>, now: int, deadline: Option<int>): Status {
    if sb.finished.Some? then
      TerminalOutcome(StampCompletion(st, pod, sb, now),
                      if pod.Some? then pod.value.agentExit else None, sb.finished.value)
    else if st.phase == Running then st
    else if pod.Some? && StartupProblem(pod.value.waiting).Some? then
      Fail(StampCompletion(st, pod, sb, now), StuckOn(StartupProblem(pod.value.waiting).value))
    else if pod.None? || !pod.value.running then
      if deadline.Some? && deadline.value - (now - sb.createdAt) <= 0 then
        Fail(StampCompletion(st, pod, sb, now), StartupDeadlineExceeded)
      else WithSucceeded(st.(phase := Pending), Unknown, PodNotRunning)
    else
      WithSucceeded(st.(phase := Running, start := Some(PodStart(pod, sb.createdAt))), Unknown, PodRunning)
  }

  function BeforeSandbox(st: Status, p: Preflight): Status {
    match p
    case BadParams => Fail(st, InvalidParams)
    case BadGateway => Fail(st, InvalidGateway)
    case BadFileMounts => Fail(st, InvalidFileMounts)
    case SourceUnavailable => WithSucceeded(st, Unknown, FileMountSourceUnavailable)
    case SourceNotFound => WithSucceeded(st, Unknown, FileMountSourceNotFound)
    case SourceInvalid => Fail(st, InvalidFileMounts)
    case GatewayMissing => WithSucceeded(st, Unknown, GatewayNotFound)
    case CreationFailed => WithSucceeded(st, Unknown, SandboxCreationFailed)
    case CreationUnanswered => WithSucceeded(st, Unknown, SandboxCreationFailed)
    case Passed => WithSucceeded(st.(sandbox := true, phase := Pending), Unknown, SandboxCreated)
  }

  function CollectGarbage(st: Status, now: int, ttl: Option<int>): Outcome {
    if ttl.None? then NoWrite
    else if st.completion.None? then Patch(st.(completion := Some(now)))
    else if st.completion.value + ttl.value - now > 0 then NoWrite
    else Delete
  }

  /** One reconcile of an AgentRun, as a function of what it reads. */
  function Reconciled(st: Status, v: View): Outcome {
    if Terminal(st.phase) then CollectGarbage(st, v.now, v.ttl)
    else match v.agent
      case Missing => Patch(Fail(st, AgentNotFound))
      case Unreadable => NoWrite
      case Found(ready) =>
        if !ready then Patch(WithSucceeded(st, Unknown, AgentNotReady))
        else if !st.sandbox then Patch(BeforeSandbox(st, v.preflight))
        else match v.sandbox
          case Missing => Patch(Fail(st, SandboxNotFound))
          case Unreadable => NoWrite
          case Found(sb) =>
            if v.pod.Unreadable? then NoWrite
            else Patch(FromSandbox(st, sb, PodSeen(v.pod), v.now, v.deadline))
  }

  /** The reconcile gets as far as having a Sandbox of the run's name created, whether or not its patch lands. */
  predicate Makes(st: Status, v: View) {
    && !Terminal(st.phase) && v.agent == Found(true) && !st.sandbox
    && (v.preflight.Passed? || v.preflight.CreationUnanswered?)
  }

  function PodSeen(pod: Lookup<Pod>): Option<Pod> {
    if pod.Found? then Some(pod.value) else None
  }

  /** The persisted status after a reconcile whose patch may be lost. */
  function Persisted(st: Status, v: View, lands: bool): Status {
    match Reconciled(st, v)
    case Patch(next) => if lands then next else st
    case NoWrite => st
    case Delete => st
  }

  /** The objects the API server stores; `Reconcile` is the controller working on them. */
  class AgentRunObject {
    var status: Status
    var deleted: bool
    var made: bool               // a Sandbox of the run's name exists

    constructor (leftover: bool)
      ensures status == FRESH && !deleted && made == leftover
    {
      status, deleted, made := FRESH, false, leftover;
    }

    method Reconcile(v: View, lands: bool)
      requires !deleted
      modifies this
      ensures status == Persisted(old(status), v, lands)
      ensures deleted == (lands && Reconciled(old(status), v) == Delete)
      ensures made == (old(made) || Makes(old(status), v))
    {
      var run := status;
      if Terminal(run.phase) {
        if v.ttl.None? { return; }
        if run.completion.None? {
          run := run.(completion := Some(v.now));
          PatchStatus(run, lands);
          return;
        }
        if run.completion.value + v.ttl.value - v.now > 0 { return; }
        deleted := lands;
        return;
      }
      if v.agent.Missing? {
        run := run.(phase := Failed);
        run := WithSucceeded(run, False, AgentNotFound);
        PatchStatus(run, lands);
        return;
      }
      if v.agent.Unreadable? { return; }
      if !v.agent.value {
        run := WithSucceeded(run, Unknown, AgentNotReady);
        PatchStatus(run, lands);
        return;
      }
      if !run.sandbox {
        match v.preflight {
          case BadParams =>
            run := run.(phase := Failed);
            run := WithSucceeded(run, False, InvalidParams);
          case BadGateway =>
            run := run.(phase := Failed);
            run := WithSucceeded(run, False, InvalidGateway);
          case BadFileMounts | SourceInvalid =>
            run := run.(phase := Failed);
            run := WithSucceeded(run, False, InvalidFileMounts);
          case SourceUnavailable =>
            run := WithSucceeded(run, Unknown, FileMountSourceUnavailable);
          case SourceNotFound =>
            run := WithSucceeded(run, Unknown, FileMountSourceNotFound);
          case GatewayMissing =>
            run := WithSucceeded(run, Unknown, GatewayNotFound);
          case CreationFailed =>
            run := WithSucceeded(run, Unknown, SandboxCreationFailed);
          case CreationUnanswered =>
            CreateSandbox();
            run := WithSucceeded(run, Unknown, SandboxCreationFailed);
          case Passed =>
            CreateSandbox();
            run := run.(sandbox := true);
            run := run.(phase := Pending);
            run := WithSucceeded(run, Unknown, SandboxCreated);
        }
        PatchStatus(run, lands);
        return;
      }
      if v.sandbox.Missing? {
        run := run.(phase := Failed);
        run := WithSucceeded(run, False, SandboxNotFound);
        PatchStatus(run, lands);
        return;
      }
      if v.sandbox.Unreadable? || v.pod.Unreadable? { return; }
      run := UpdatePhaseFromSandbox(run, v.sandbox.value, PodSeen(v.pod), v.now, v.deadline);
      PatchStatus(run, lands);
    }

    /** A Sandbox that is already there is taken as it is. */
    method CreateSandbox()
      modifies this`made
      ensures made
    {
      if !made { made := true; }
    }

    method PatchStatus(run: Status, lands: bool)
      modifies this`status
      ensures status == if lands then run else old(status)
    {
      if lands { status := run; }
    }
  }

  method UpdatePhaseFromSandbox(st: Status, sb: Sandbox, pod: Option<Pod>, now: int, deadline: Option<int>)
    returns (run: Status)
    ensures run == FromSandbox(st, sb, pod, now, deadline)
  {
    run := st;
    if sb.finished.Some? {
      run := StampCompletion(run, pod, sb, now);
      run := TerminalOutcome(run, if pod.Some? then pod.value.agentExit else None, sb.finished.value);
      return;
    }
    if run.phase == Running { return; }
    if pod.Some? {
      var problem := FindStartupProblem(pod.value.waiting);
      if problem.Some? {
        run := run.(phase := Failed);
        run := StampCompletion(run, pod, sb, now);
        run := WithSucceeded(run, False, StuckOn(problem.value));
        return;
      }
    }
    if pod.None? || !pod.value.running {
      if deadline.Some? {
        var remaining := deadline.value - (now - sb.createdAt);
        if remaining <= 0 {
          run := run.(phase := Failed);
          run := StampCompletion(run, pod, sb, now);
          run := WithSucceeded(run, False, StartupDeadlineExceeded);
          return;
        }
      }
      run := run.(phase := Pending);
      run := WithSucceeded(run, Unknown, PodNotRunning);
      return;
    }
    run := run.(phase := Running);
    run := run.(start := Some(PodStart(pod, sb.createdAt)));
    run := WithSucceeded(run, Unknown, PodRunning);
  }

  method FindStartupProblem(waiting: seq<Waiting>) returns (r: Option<Waiting>)
    ensures r == StartupProblem(waiting)
  {
    for i := 0 to |waiting|
      invariant StartupProblem(waiting) == StartupProblem(waiting[i..])
    {
      if FatalWaiting(waiting[i]) { return Some(waiting[i]); }
    }
    return None;
  }

  // ---------------------------------------------------------------- what one reconcile decides

  /** A live run with its Sandbox on record, and an Agent and objects that can be read. */
  predicate Watches(st: Status, v: View) {
    && !Terminal(st.phase) && st.sandbox && v.agent == Found(true) && v.sandbox.Found? && !v.pod.Unreadable?
  }

  /** Container i waits for something that will not come, and no earlier one does. */
  predicate FirstStuck(waiting: seq<Waiting>, i: nat) {
    && i < |waiting|
    && waiting[i] in {ImagePullBackOff, InvalidImageName, CreateContainerConfigError, CrashLoopBackOff}
    && forall j :: 0 <= j < i ==> waiting[j] in {NotWaiting, OtherWaiting}
  }

  lemma {:induction false} ProblemIsFirst(waiting: seq<Waiting>, i: nat)
    requires FirstStuck(waiting, i)
    ensures StartupProblem(waiting) == Some(waiting[i])
  {
    if i > 0 {
      assert waiting[0] in {NotWaiting, OtherWaiting};
      ProblemIsFirst(waiting[1..], i - 1);
    }
  }

  predicate RunsNow(v: View) {
    v.pod.Found? && v.pod.value.running
  }

  /** The deadline counts from the Sandbox's creation. */
  predicate Overdue(v: View)
    requires v.sandbox.Found?
  {
    v.deadline.Some? && v.now - v.sandbox.value.createdAt >= v.deadline.value
  }

  /** A container that cannot start fails the run at once, naming what it waits for. */
  lemma StuckFails(st: Status, v: View, i: nat)
    requires Watches(st, v) && v.sandbox.value.finished.None? && st.phase != Running
    requires v.pod.Found? && FirstStuck(v.pod.value.waiting, i)
    ensures var next := Persisted(st, v, true);
      && next.phase == Failed && next.succeeded == Some(Condition(False, StuckOn(v.pod.value.waiting[i])))
      && next.completion == Some(v.now)
  {
    ProblemIsFirst(v.pod.value.waiting, i);
  }

  /** Otherwise the run is Running exactly when its pod is, and else waits, but no longer than its deadline. */
  lemma StartingRunTable(st: Status, v: View)
    requires Watches(st, v) && v.sandbox.value.finished.None? && st.phase != Running
    requires v.pod.Found? ==> forall w :: w in v.pod.value.waiting ==> w == NotWaiting || w == OtherWaiting
    ensures var next := Persisted(st, v, true);
      if RunsNow(v) then
        && next.phase == Running && next.succeeded == Some(Condition(Unknown, PodRunning))
        && next.start == Some(StartedAt(v.pod.value, v.sandbox.value))
        && next == st.(phase := Running, succeeded := next.succeeded, start := next.start)
      else if Overdue(v) then
        && next.phase == Failed && next.succeeded == Some(Condition(False, StartupDeadlineExceeded))
        && next.completion == Some(v.now)
      else next == st.(phase := Pending, succeeded := Some(Condition(Unknown, PodNotRunning)))
  {
  }

  /** The container's start, else the pod's acceptance, else the Sandbox's creation. */
  function StartedAt(p: Pod, sb: Sandbox): int {
    match (p.containerStart, p.accepted)
    case (Some(t), _) => t
    case (None, Some(t)) => t
    case (None, None) => sb.createdAt
  }

  /** A running run stays as it is until its Sandbox has finished. */
  lemma RunningStays(st: Status, v: View, lands: bool)
    requires Watches(st, v) && v.sandbox.value.finished.None? && st.phase == Running
    ensures Persisted(st, v, lands) == st
  {
  }

  /** A finished Sandbox ends the run: by the agent's exit code if there is one, else by the Sandbox's own reason. */
  lemma FinishedTable(st: Status, v: View)
    requires Watches(st, v) && v.sandbox.value.finished.Some?
    ensures var next := Persisted(st, v, true);
      var exit := if v.pod.Found? then v.pod.value.agentExit else None;
      var good := if exit.Some? then exit.value == 0 else v.sandbox.value.finished.value == PodSucceeded;
      && next.phase == (if good then Succeeded else Failed)
      && next.succeeded == Some(if good then Condition(True, RunSucceeded)
                                else Condition(False, if exit == Some(2) then LimitReached else RunFailed))
      && next.completion == Some(v.now) && next.sandbox
      && next.start == Some(if st.start.Some? then st.start.value
                            else if v.pod.Found? then StartedAt(v.pod.value, v.sandbox.value)
                            else v.sandbox.value.createdAt)
      && next.duration == Some(v.now - next.start.value)
  {
  }

  /** What keeps a run from having its Sandbox: bad input fails it, what may yet come is waited for. */
  lemma PreflightTable(st: Status, v: View)
    requires !Terminal(st.phase) && !st.sandbox && v.agent == Found(true)
    ensures var next := Persisted(st, v, true);
      match v.preflight
      case Passed => next == st.(phase := Pending, sandbox := true, succeeded := Some(Condition(Unknown, SandboxCreated)))
      case BadParams => next == st.(phase := Failed, succeeded := Some(Condition(False, InvalidParams)))
      case BadGateway => next == st.(phase := Failed, succeeded := Some(Condition(False, InvalidGateway)))
      case BadFileMounts => next == st.(phase := Failed, succeeded := Some(Condition(False, InvalidFileMounts)))
      case SourceInvalid => next == st.(phase := Failed, succeeded := Some(Condition(False, InvalidFileMounts)))
      case SourceUnavailable => next == st.(succeeded := Some(Condition(Unknown, FileMountSourceUnavailable)))
      case SourceNotFound => next == st.(succeeded := Some(Condition(Unknown, FileMountSourceNotFound)))
      case GatewayMissing => next == st.(succeeded := Some(Condition(Unknown, GatewayNotFound)))
      case CreationFailed => next == st.(succeeded := Some(Condition(Unknown, SandboxCreationFailed)))
      case CreationUnanswered => next == st.(succeeded := Some(Condition(Unknown, SandboxCreationFailed)))
    ensures Makes(st, v) <==> v.preflight in {Passed, CreationUnanswered}
  {
  }

  /**
   A missing Agent or a vanished Sandbox fails the run; an Agent that is not ready is waited for; a
   failed read changes nothing.
   */
  lemma MissingObjectTable(st: Status, v: View)
    requires !Terminal(st.phase)
    ensures var next := Persisted(st, v, true);
      && (v.agent.Missing? ==> next == st.(phase := Failed, succeeded := Some(Condition(False, AgentNotFound))))
      && (v.agent == Found(false) ==> next == st.(succeeded := Some(Condition(Unknown, AgentNotReady))))
      && (v.agent.Unreadable? ==> next == st)
      && (v.agent == Found(true) && st.sandbox && v.sandbox.Missing? ==>
            next == st.(phase := Failed, succeeded := Some(Condition(False, SandboxNotFound))))
      && (v.agent == Found(true) && st.sandbox && (v.sandbox.Unreadable? || (v.sandbox.Found? && v.pod.Unreadable?)) ==>
            next == st)
      && (v.agent != Found(true) || st.sandbox ==> !Makes(st, v))
  {
  }

  /** A finished run changes once more at most: a TTL anchors it to a completion time if it has none. */
  lemma TerminalTable(st: Status, v: View)
    requires Terminal(st.phase)
    ensures Persisted(st, v, true) == if v.ttl.Some? && st.completion.None? then st.(completion := Some(v.now)) else st
    ensures !Makes(st, v)
  {
  }

  // ---------------------------------------------------------------- what every run keeps

  /** Holds of every status the controller ever persists. */
  ghost predicate Inv(st: Status) {
    && (st.phase == Succeeded <==> st.succeeded.Some? && st.succeeded.value.status == True)
    && (st.phase == Failed <==> st.succeeded.Some? && st.succeeded.value.status == False)
    && (st.phase == NoPhase ==> !st.sandbox)
    && (st.phase in {Pending, Running} ==> st.sandbox)
    && (st.phase in {NoPhase, Pending} ==> st.start.None?)
    && (st.phase == Running ==> st.start.Some?)
    && (!Terminal(st.phase) ==> st.completion.None? && st.duration.None?)
    && (st.duration.Some? ==> st.start.Some? && st.completion.Some?
                              && st.duration.value == st.completion.value - st.start.value)
  }

  /** Later statuses never undo earlier ones. */
  ghost predicate Advances(a: Status, b: Status) {
    && Rank(a.phase) <= Rank(b.phase)
    && (Terminal(a.phase) ==> b.phase == a.phase && b.succeeded == a.succeeded)
    && (a.sandbox ==> b.sandbox)
    && (a.start.Some? ==> b.start == a.start)
    && (a.completion.Some? ==> b.completion == a.completion && b.duration == a.duration)
  }

  lemma ReconcileKeepsInv(st: Status, v: View, lands: bool)
    requires Inv(st)
    ensures Inv(Persisted(st, v, lands))
    ensures Advances(st, Persisted(st, v, lands))
  {
    ReconcileAdvances(st, v, lands);
  }

  lemma ReconcileAdvances(st: Status, v: View, lands: bool)
    requires Inv(st)
    ensures Advances(st, Persisted(st, v, lands))
  {
  }

  datatype Event = Event(view: View, lands: bool)

  function After(st: Status, events: seq<Event>): Status
    decreases |events|
  {
    if events == [] then st
    else After(Persisted(st, events[0].view, events[0].lands), events[1..])
  }

  /** Every reachable status satisfies the invariant, and phases, outcome and times only move forward. */
  lemma {:induction false} RunKeepsInv(st: Status, events: seq<Event>)
    requires Inv(st)
    ensures Inv(After(st, events)) && Advances(st, After(st, events))
    decreases |events|
  {
    if events != [] {
      var e := events[0];
      ReconcileKeepsInv(st, e.view, e.lands);
      RunKeepsInv(Persisted(st, e.view, e.lands), events[1..]);
    }
  }

  lemma {:induction false} AfterAppend(st: Status, es: seq<Event>, fs: seq<Event>)
    ensures After(st, es + fs) == After(After(st, es), fs)
    decreases |es|
  {
    if es == [] {
      assert es + fs == fs;
    } else {
      assert (es + fs)[1..] == es[1..] + fs;
      AfterAppend(Persisted(st, es[0].view, es[0].lands), es[1..], fs);
    }
  }

  /** Whole-run form: over any history, at any two points. */
  lemma RunOnlyAdvances(es: seq<Event>, i: nat, j: nat)
    requires i <= j <= |es|
    ensures Inv(After(FRESH, es[..j]))
    ensures Advances(After(FRESH, es[..i]), After(FRESH, es[..j]))
  {
    assert es[..i] + es[i..j] == es[..j];
    AfterAppend(FRESH, es[..i], es[i..j]);
    RunKeepsInv(FRESH, es[..i]);
    RunKeepsInv(After(FRESH, es[..i]), es[i..j]);
  }

  /** A status names a Sandbox only if some reconcile of the history had it created. */
  lemma {:induction false} RecordedWasMade(es: seq<Event>) returns (i: nat)
    requires After(FRESH, es).sandbox
    ensures i < |es| && es[i].lands && Makes(After(FRESH, es[..i]), es[i].view)
  {
    assert es != [];
    var n := |es| - 1;
    var front, e := es[..n], es[n];
    assert es == front + [e];
    AfterAppend(FRESH, front, [e]);
    assert [e][1..] == [];
    if After(FRESH, front).sandbox {
      i := RecordedWasMade(front);
      assert front[i] == es[i] && front[..i] == es[..i];
    } else {
      i := n;
    }
  }

  /** In a reachable state a reconcile deletes exactly when the run is terminal and its TTL is over. */
  lemma DeletesExactlyWhenDue(es: seq<Event>, v: View)
    ensures var st := After(FRESH, es);
      Reconciled(st, v) == Delete <==>
        Terminal(st.phase) && v.ttl.Some? && st.completion.Some?
        && v.now >= st.completion.value + v.ttl.value
  {
  }

  /** Some landed reconcile of the history, at this time, left the run terminal with its completion time. */
  ghost predicate StampedAt(es: seq<Event>, i: nat, time: int) {
    && i < |es| && es[i].lands && es[i].view.now == time
    && After(FRESH, es[..i]).completion.None?
    && Terminal(After(FRESH, es[..i + 1]).phase) && After(FRESH, es[..i + 1]).completion == Some(time)
  }

  lemma CompletionStep(st: Status, e: Event)
    requires Inv(st) && Persisted(st, e.view, e.lands).completion.Some?
    ensures var next := Persisted(st, e.view, e.lands);
      if st.completion.Some? then next.completion == st.completion
      else e.lands && next.completion == Some(e.view.now) && Terminal(next.phase)
  {
    ReconcileKeepsInv(st, e.view, e.lands);
  }

  /** A completion time is the clock reading of the one reconcile that persisted it. */
  lemma {:induction false} CompletionWasStamped(es: seq<Event>) returns (i: nat)
    requires After(FRESH, es).completion.Some?
    ensures StampedAt(es, i, After(FRESH, es).completion.value)
  {
    assert es != [];
    var n := |es| - 1;
    var front, e := es[..n], es[n];
    assert es == front + [e];
    AfterAppend(FRESH, front, [e]);
    assert [e][1..] == [];
    RunKeepsInv(FRESH, front);
    var st := After(FRESH, front);
    CompletionStep(st, e);
    if st.completion.Some? {
      i := CompletionWasStamped(front);
      assert front[i] == es[i] && front[..i] == es[..i] && front[..i + 1] == es[..i + 1];
    } else {
      i := n;
      assert es[..n + 1] == es;
    }
  }

  /** Over every history, no run is deleted until its TTL has passed since the reconcile that completed it. */
  lemma DeletedOnlyAfterTtl(es: seq<Event>, v: View) returns (i: nat)
    requires Reconciled(After(FRESH, es), v) == Delete
    ensures i < |es| && StampedAt(es, i, es[i].view.now)
    ensures v.ttl.Some? && v.now >= es[i].view.now + v.ttl.value
  {
    i := CompletionWasStamped(es);
  }

  /** A finished Sandbox whose agent exit code is visible: success exactly on exit 0. */
  lemma OutcomeFollowsExitCode(st: Status, v: View, code: int)
    requires !Terminal(st.phase) && st.sandbox && v.agent == Found(true)
    requires v.sandbox.Found? && v.sandbox.value.finished.Some?
    requires v.pod.Found? && v.pod.value.agentExit == Some(code)
    ensures var next := Persisted(st, v, true);
      && Terminal(next.phase)
      && (next.phase == Succeeded <==> code == 0)
      && (next.succeeded.value.reason == LimitReached <==> code == 2)
      && next.completion == Some(v.now)
  {
  }
}
