/**
 Runs that go wrong: the controllers and the pods by themselves, one edit or removal, and the
 controllers and the pods by themselves again.
 */
module WorkflowRuns {
  import opened Common
  import AR = AgentRun
  import opened Workflow
  import opened WorkflowOneLive
  import opened WorkflowToken
  import opened WorkflowLimits

  /** The first reconcile creates an AgentRun; its patch lands or is lost. */
  lemma FirstCreation(w: Option<seq<string>>, lands: bool) returns (c: Cluster)
    requires ValidWorkflow(w) && w.Some?
    ensures Leads(Init(w), c) && Base(c) && Placed(c) && Further(Init(w), c, c, w.value[0])
    ensures c.workflow == w && c.sandboxes == map[] && c.log == [] && Current(c) == 0 && Plan(c) == w.value
    ensures c.store.agentRuns == map[w.value[0] := StageRun(0, |w.value|, AR.FRESH)]
    ensures !AR.Terminal(c.store.run.phase) && (!lands ==> c.store.run == FRESH_RUN)
    ensures forall i :: 0 < i ==> !Recorded(c, i)
  {
    var s := Reconcile(MAKE, lands);
    InitBase(w);
    CurrentUnique([], 0);
    CurrentUnique(Snapshot(w.value), 0);
    LeadsNowhere(Init(w));
    LeadsStep(Init(w), Init(w), s);
    c := Next(Init(w), s);
    StepKeepsBase(Init(w), s);
    StepKeepsPlaced(Init(w), s);
    ReconcileEffect(Init(w), MAKE, lands);
  }

  /** Lose the first patch, rename the stage: two AgentRuns run side by side. */
  lemma TwoLive() returns (w: Option<seq<string>>, c: Cluster, d: Cluster)
    ensures ValidWorkflow(w) && Leads(Init(w), c) && Enabled(c, EditWorkflow(Some(["b"])))
    ensures Leads(Next(c, EditWorkflow(Some(["b"]))), d) && !AtMostOneLive(d)
  {
    w := Some(["a"]);
    c := FirstCreation(w, false);
    var edit := EditWorkflow(Some(["b"]));
    StepKeepsBase(c, edit);
    var e := Next(c, edit);
    assert Live(e, "a") && NextStage(e) == 0 && Crossed(e);
    LeadsNowhere(e);
    d := CrossedGoesWrong(e, e);
  }

  // ---------------------------------------------------------------- without the token

  datatype Cause = DeletedRun | ExpiredRun | RenamedStage | RenamedUnseen | DeletedSandbox

  const FAILED_VIEW :=
    AR.View(AR.Found(true), AR.Passed, AR.Found(AR.Sandbox(0, Some(AR.OtherFinish))), AR.Missing, 0, None, None)

  const EXPIRED_VIEW := FAILED_VIEW.(ttl := Some(0))

  const NO_AGENT_VIEW := FAILED_VIEW.(agent := AR.Missing)

  function Disturbance(cause: Cause): Step {
    match cause
    case DeletedRun => DeleteAgentRun("a")
    case ExpiredRun => ReconcileAgentRun("a", EXPIRED_VIEW, true)
    case RenamedStage => EditWorkflow(Some(["c", "b"]))
    case RenamedUnseen => EditWorkflow(Some(["c", "b"]))
    case DeletedSandbox => DeleteSandbox("a")
  }

  /** The first stage's AgentRun exists; what happened to it since, no edit or removal did. */
  ghost predicate AtFirstStage(c: Cluster) {
    && Leads(Init(Some(["a", "b"])), c) && Base(c) && Placed(c)
    && c.workflow == Some(["a", "b"]) && Plan(c) == ["a", "b"] && Current(c) == 0 && !AR.Terminal(c.store.run.phase)
    && c.store.agentRuns.Keys == {"a"} && c.store.agentRuns["a"].index == 0
    && "a" in c.sandboxes && c.sandboxes["a"].index == 0 && !c.sandboxes["a"].orphan
    && !Recorded(c, 1)
  }

  /** The workflow's patch is lost; the first stage fails and revokes the token, and its AgentRun says so. */
  lemma UnrecordedFailure() returns (c: Cluster)
    ensures AtFirstStage(c) && c.store.run == FRESH_RUN && RevokedBelow(c.log, 1)
    ensures c.sandboxes["a"].pod == Exited(1)
    ensures c.store.agentRuns["a"].status.phase == AR.Failed && c.store.agentRuns["a"].status.completion == Some(0)
  {
    var c0 := Init(Some(["a", "b"]));
    var a := FirstCreation(Some(["a", "b"]), false);
    var b := Make(c0, a, a, "a");
    b := Fail(c0, a, b, "a");
    assert Revokes(b.log[|b.log| - 1]);
    c := NoteFailure(c0, a, b, "a");
    InitPlaced(c);
  }

  /** The AgentRun of a process that has ended is marked Failed when its Sandbox says so. */
  lemma NoteFailure(c0: Cluster, a: Cluster, c: Cluster, n: string) returns (d: Cluster)
    requires Further(c0, a, c, n) && n in c.store.agentRuns && n in c.sandboxes && c.sandboxes[n].pod.Exited?
    requires c.store.agentRuns[n].status.sandbox && !AR.Terminal(c.store.agentRuns[n].status.phase)
    ensures Further(c0, a, d, n) && d.sandboxes == c.sandboxes && d.log == c.log
    ensures d.store.agentRuns[n].index == c.store.agentRuns[n].index
    ensures d.store.agentRuns[n].status.phase == AR.Failed && d.store.agentRuns[n].status.completion == Some(0)
  {
    d := Step1(c0, a, c, n, ReconcileAgentRun(n, FAILED_VIEW, true));
  }

  /** A Sandbox is made, but the patch that records it is lost. */
  lemma UnseenSandbox(lands: bool) returns (a: Cluster, c: Cluster)
    ensures AtFirstStage(c) && Further(Init(Some(["a", "b"])), a, c, "a")
    ensures c.store.agentRuns["a"].status == AR.FRESH && c.sandboxes["a"].pod == NotStarted
    ensures !lands ==> c.store.run == FRESH_RUN
  {
    var c0 := Init(Some(["a", "b"]));
    a := FirstCreation(Some(["a", "b"]), lands);
    c := Step1(c0, a, a, "a", ReconcileAgentRun("a", READY_VIEW, false));
    InitPlaced(c);
  }

  /** ... and its AgentRun fails for want of an Agent, while the pod is yet to start. */
  lemma UnseenProcess() returns (c: Cluster)
    ensures AtFirstStage(c) && c.store.run == FRESH_RUN && Unfinished(c, "a")
  {
    var a, b := UnseenSandbox(false);
    c := Step1(Init(Some(["a", "b"])), a, b, "a", ReconcileAgentRun("a", NO_AGENT_VIEW, true));
    InitPlaced(c);
  }

  /** ... or the process fails and revokes the token before any status names its Sandbox. */
  lemma UnseenFailure() returns (c: Cluster)
    ensures AtFirstStage(c) && RevokedBelow(c.log, 1) && c.store.agentRuns["a"].status == AR.FRESH
  {
    var a, b := UnseenSandbox(true);
    c := Fail(Init(Some(["a", "b"])), a, b, "a");
    assert Revokes(c.log[|c.log| - 1]);
    InitPlaced(c);
  }

  lemma InitPlaced(c: Cluster)
    requires Leads(Init(Some(["a", "b"])), c)
    ensures Placed(c)
  {
    InitTokenInv(Some(["a", "b"]));
    LeadsToPlaced(Init(Some(["a", "b"])), c);
  }

  /**
   Five ways to start a stage without the token.  A lost workflow patch lets the first stage run
   unrecorded; then its AgentRun is deleted, or its TTL passes, or the stage is renamed, after its
   process failed or (with the AgentRun's own patch lost too, and no Agent) before it even started.
   And a lost AgentRun patch alone lets the AgentRun have a second Sandbox made once the first is deleted.
   */
  lemma StartsWithoutToken(cause: Cause) returns (c: Cluster, d: Cluster)
    ensures Leads(Init(Some(["a", "b"])), c) && Enabled(c, Disturbance(cause))
    ensures Leads(Next(c, Disturbance(cause)), d) && !TokenSafe(d.log)
  {
    match cause {
      case DeletedRun => c := UnrecordedFailure();
      case ExpiredRun => c := UnrecordedFailure();
      case RenamedStage => c := UnrecordedFailure();
      case RenamedUnseen => c := UnseenProcess();
      case DeletedSandbox => c := UnseenFailure();
    }
    var s := Disturbance(cause);
    StepKeepsBase(c, s);
    StepKeepsPlaced(c, s);
    var e := Next(c, s);
    DisturbedIsPrimed(cause, c, e);
    LeadsNowhere(e);
    d := PrimedGoesWrong(e, e);
  }

  lemma DisturbedIsPrimed(cause: Cause, c: Cluster, d: Cluster)
    requires AtFirstStage(c) && Enabled(c, Disturbance(cause)) && d == Next(c, Disturbance(cause))
    requires if cause.RenamedUnseen? then Unfinished(c, "a") else RevokedBelow(c.log, 1)
    requires cause.DeletedSandbox? ==> c.store.agentRuns["a"].status == AR.FRESH
    requires !cause.DeletedSandbox? ==> c.store.run == FRESH_RUN
    requires cause.ExpiredRun? ==>
      c.store.agentRuns["a"].status.phase == AR.Failed && c.store.agentRuns["a"].status.completion == Some(0)
    ensures Primed(d)
  {
    assert Current(d) == 0 && Fresh(d, 1) && Open(d, 1);
    assert cause.RenamedUnseen? ==> Threatens(d, "a", 1);
    assert Threatened(d, 1);
  }
}
