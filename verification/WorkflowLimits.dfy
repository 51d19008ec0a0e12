/**
 The other half of workflow safety: what the controllers and the pods do by themselves from a
 crossed or primed state.
 */
module WorkflowLimits {
  import opened Common
  import AR = AgentRun
  import Decimals
  import SE = StageExit
  import PromptFold
  import opened Workflow
  import opened WorkflowOneLive
  import opened WorkflowToken

  // ---------------------------------------------------------------- what the controllers do by themselves

  const MAKE := Reading(true, Created, false)

  const READY_VIEW := AR.View(AR.Found(true), AR.Passed, AR.Missing, AR.Missing, 0, None, None)

  const DONE_VIEW :=
    AR.View(AR.Found(true), AR.Passed, AR.Found(AR.Sandbox(0, Some(AR.PodSucceeded))), AR.Missing, 0, None, None)

  predicate Fits(i: SE.Inputs, sb: Sandbox) {
    i.stage == Decimals.Format(sb.index + 1) && i.stageCount == Decimals.Format(sb.count)
  }

  predicate LastStage(sb: Sandbox) {
    Last(sb.index, sb.count) && sb.count < Decimals.TWO_64
  }

  /** A stage process may fail during setup. */
  lemma Failure(sb: Sandbox) returns (i: SE.Inputs)
    ensures SE.WellFormed(i) && Fits(i, sb) && SE.StageCode(i) == 1 && SE.StageRevokes(i)
  {
    assert Decimals.AllDigits("7") && Decimals.Value("7") == 7;
    i := SE.Inputs(true, "7", Decimals.Format(sb.index + 1), Decimals.Format(sb.count), false,
                   SE.PromptEnd(None, SE.OtherError), 0, false, true, true);
  }

  /** ... or succeed, which as a last stage revokes the token. */
  lemma Success(sb: Sandbox) returns (i: SE.Inputs)
    ensures SE.WellFormed(i) && Fits(i, sb) && SE.StageCode(i) == 0
    ensures LastStage(sb) ==> SE.StageRevokes(i)
  {
    assert Decimals.AllDigits("7") && Decimals.Value("7") == 7;
    i := SE.Inputs(true, "7", Decimals.Format(sb.index + 1), Decimals.Format(sb.count), true,
                   SE.PromptEnd(Some(PromptFold.EMPTY), SE.NoError), 0, false, true, true);
    if LastStage(sb) { SE.StampedPosition(sb.index, sb.count); }
  }

  /** d is reached from c0 and is c but for n's AgentRun and Sandbox, and for what was logged since. */
  ghost predicate Further(c0: Cluster, c: Cluster, d: Cluster, n: string) {
    Leads(c0, d) && Base(d) && Elsewhere(c, d, n)
  }

  ghost predicate Elsewhere(c: Cluster, d: Cluster, n: string) {
    && d.workflow == c.workflow && d.store.run == c.store.run && c.log <= d.log
    && d.store.agentRuns.Keys == c.store.agentRuns.Keys
    && (forall m :: m in c.store.agentRuns && m != n ==> d.store.agentRuns[m] == c.store.agentRuns[m])
    && (forall m :: m != n ==> (m in d.sandboxes <==> m in c.sandboxes))
    && (forall m :: m in c.sandboxes && m != n ==> d.sandboxes[m] == c.sandboxes[m])
  }

  /** One more step, of n's own. */
  lemma Step1(c0: Cluster, a: Cluster, c: Cluster, n: string, s: Step) returns (d: Cluster)
    requires Further(c0, a, c, n) && Enabled(c, s) && Ordinary(c, s)
    requires !s.Reconcile? && !s.EditWorkflow? && s.name == n
    ensures d == Next(c, s) && Further(c0, a, d, n)
  {
    LeadsStep(c0, c, s);
    StepKeepsBase(c, s);
    d := Next(c, s);
    OwnStepElsewhere(c, s);
    ElsewhereTrans(a, c, d, n);
  }

  lemma OwnStepElsewhere(c: Cluster, s: Step)
    requires Enabled(c, s) && Ordinary(c, s) && !s.Reconcile? && !s.EditWorkflow?
    ensures Elsewhere(c, Next(c, s), s.name)
  {
  }

  lemma ElsewhereTrans(a: Cluster, c: Cluster, d: Cluster, n: string)
    requires Elsewhere(a, c, n) && Elsewhere(c, d, n)
    ensures Elsewhere(a, d, n)
  {
  }

  /** A running process ends as its inputs say. */
  lemma Finish(c0: Cluster, a: Cluster, c: Cluster, n: string, i: SE.Inputs) returns (d: Cluster)
    requires Further(c0, a, c, n) && Enabled(c, FinishPod(n, i))
    ensures Further(c0, a, d, n) && d.store == c.store
    ensures d.sandboxes == c.sandboxes[n := c.sandboxes[n].(pod := Exited(SE.StageCode(i)))]
    ensures d.log == c.log + [PodFinished(n, c.sandboxes[n].index, SE.StageCode(i), SE.StageRevokes(i))]
  {
    d := Step1(c0, a, c, n, FinishPod(n, i));
  }

  /** An AgentRun that may have a Sandbox made gets one, and has it on record. */
  lemma Make(c0: Cluster, a: Cluster, c: Cluster, n: string) returns (d: Cluster)
    requires Further(c0, a, c, n) && MayMake(c, n)
    ensures Further(c0, a, d, n) && d.log == c.log && n in d.sandboxes && n in d.store.agentRuns
    ensures var r := c.store.agentRuns[n]; d.sandboxes[n] == Sandbox(r.index, r.count, NotStarted, false)
    ensures !AR.Terminal(d.store.agentRuns[n].status.phase) && d.store.agentRuns[n].status.sandbox
  {
    var b := c;
    if n in c.sandboxes { b := Step1(c0, a, c, n, DeleteSandbox(n)); }
    d := MakeNew(c0, a, b, n);
  }

  lemma MakeNew(c0: Cluster, a: Cluster, c: Cluster, n: string) returns (d: Cluster)
    requires Further(c0, a, c, n) && MayMake(c, n) && n !in c.sandboxes
    ensures Further(c0, a, d, n) && d.log == c.log && n in d.sandboxes && n in d.store.agentRuns
    ensures var r := c.store.agentRuns[n]; d.sandboxes[n] == Sandbox(r.index, r.count, NotStarted, false)
    ensures !AR.Terminal(d.store.agentRuns[n].status.phase) && d.store.agentRuns[n].status.sandbox
  {
    d := Step1(c0, a, c, n, ReconcileAgentRun(n, READY_VIEW, true));
  }

  /** A process that has not ended is running, if need be after it started. */
  lemma Running(c0: Cluster, a: Cluster, c: Cluster, n: string) returns (d: Cluster)
    requires Further(c0, a, c, n) && Unfinished(c, n)
    ensures Further(c0, a, d, n) && c.log <= d.log && d.store == c.store
    ensures d.sandboxes == c.sandboxes[n := c.sandboxes[n].(pod := Started)]
  {
    d := c;
    if c.sandboxes[n].pod.NotStarted? { d := Step1(c0, a, c, n, StartPod(n)); }
  }

  /** Whoever may start can start. */
  lemma StartUp(c0: Cluster, a: Cluster, c: Cluster, n: string, i: nat) returns (d: Cluster)
    requires Further(c0, a, c, n) && MayStart(c, n, i)
    ensures Further(c0, a, d, n) && d.log == c.log + [PodStarted(n, i)]
  {
    var b := c;
    if !(n in c.sandboxes && c.sandboxes[n].pod.NotStarted? && c.sandboxes[n].index == i) { b := Make(c0, a, c, n); }
    d := Step1(c0, a, b, n, StartPod(n));
  }

  /** A process that has not ended may fail, revoking the token whatever its position. */
  lemma Fail(c0: Cluster, a: Cluster, c: Cluster, n: string) returns (d: Cluster)
    requires Further(c0, a, c, n) && Unfinished(c, n)
    ensures Further(c0, a, d, n) && d.store == c.store
    ensures d.sandboxes == c.sandboxes[n := c.sandboxes[n].(pod := Exited(1))]
    ensures |d.log| > |c.log| && c.log <= d.log && d.log[|d.log| - 1] == PodFinished(n, c.sandboxes[n].index, 1, true)
  {
    var b := Running(c0, a, c, n);
    var i := Failure(b.sandboxes[n]);
    d := Finish(c0, a, b, n, i);
  }

  /** ... or succeed; as a last stage it revokes the token. */
  lemma EndWell(c0: Cluster, a: Cluster, c: Cluster, n: string) returns (d: Cluster)
    requires Further(c0, a, c, n) && Unfinished(c, n)
    ensures Further(c0, a, d, n) && d.store == c.store
    ensures d.sandboxes == c.sandboxes[n := c.sandboxes[n].(pod := Exited(0))]
    ensures |d.log| > |c.log| && c.log <= d.log && d.log[|d.log| - 1].index == c.sandboxes[n].index
    ensures LastStage(c.sandboxes[n]) ==> Revokes(d.log[|d.log| - 1])
  {
    var b := Running(c0, a, c, n);
    var i := Success(b.sandboxes[n]);
    d := Finish(c0, a, b, n, i);
  }

  /** A live AgentRun that is not dead can have its process: a Sandbox on record that has not failed. */
  lemma House(c0: Cluster, c: Cluster, n: string) returns (d: Cluster)
    requires Leads(c0, c) && Base(c) && n in c.store.agentRuns
    requires !AR.Terminal(c.store.agentRuns[n].status.phase) && !Dead(c, n)
    ensures Further(c0, c, d, n) && d.log == c.log && Housed(d, n)
    ensures var r := c.store.agentRuns[n];
      if MayMake(c, n) then d.sandboxes[n] == Sandbox(r.index, r.count, NotStarted, false)
      else d.sandboxes == c.sandboxes
  {
    assert ChildSound(c, n, c.store.agentRuns[n]);
    d := c;
    if MayMake(c, n) {
      d := Make(c0, c, c, n);
    } else if !c.store.agentRuns[n].status.sandbox {
      d := Step1(c0, c, c, n, ReconcileAgentRun(n, READY_VIEW, true));
    }
  }

  ghost predicate Housed(c: Cluster, n: string) {
    && n in c.store.agentRuns && !AR.Terminal(c.store.agentRuns[n].status.phase) && c.store.agentRuns[n].status.sandbox
    && n in c.sandboxes && (c.sandboxes[n].pod.Exited? ==> c.sandboxes[n].pod.code == 0)
  }

  lemma Conclude(c0: Cluster, a: Cluster, c: Cluster, n: string) returns (d: Cluster)
    requires Further(c0, a, c, n) && Housed(c, n)
    ensures Further(c0, a, d, n) && c.log <= d.log && d.store.agentRuns[n].status.phase == AR.Succeeded
    ensures Unfinished(c, n) && LastStage(c.sandboxes[n]) ==> RevokedSince(c, d, c.sandboxes[n].index)
  {
    var b := c;
    if Unfinished(c, n) {
      b := EndWell(c0, a, c, n);
      if LastStage(c.sandboxes[n]) { assert Revokes(b.log[|b.log| - 1]); }
    }
    d := NoteSuccess(c0, a, b, n);
  }

  lemma NoteSuccess(c0: Cluster, a: Cluster, c: Cluster, n: string) returns (d: Cluster)
    requires Further(c0, a, c, n) && Housed(c, n) && c.sandboxes[n].pod == Exited(0)
    ensures Further(c0, a, d, n) && d.log == c.log && d.store.agentRuns[n].status.phase == AR.Succeeded
  {
    d := Step1(c0, a, c, n, ReconcileAgentRun(n, DONE_VIEW, true));
  }

  /** An AgentRun that is not dead may succeed; if its process is a last stage's, that revokes the token. */
  lemma Succeed(c0: Cluster, c: Cluster, n: string) returns (d: Cluster)
    requires Leads(c0, c) && Base(c) && n in c.store.agentRuns && !Dead(c, n)
    ensures Further(c0, c, d, n) && d.store.agentRuns[n].status.phase == AR.Succeeded
    ensures Unfinished(c, n) && Bound(c, n) && LastStage(c.sandboxes[n]) ==> RevokedSince(c, d, c.sandboxes[n].index)
    ensures var r := c.store.agentRuns[n];
      MayMake(c, n) && Last(r.index, r.count) && r.count < Decimals.TWO_64 ==> RevokedSince(c, d, r.index)
  {
    assert ChildSound(c, n, c.store.agentRuns[n]);
    d := c;
    if c.store.agentRuns[n].status.phase != AR.Succeeded {
      var b := House(c0, c, n);
      d := Conclude(c0, c, b, n);
    }
  }

  ghost predicate RevokedSince(c: Cluster, d: Cluster, i: nat) {
    exists p :: |c.log| <= p < |d.log| && Revokes(d.log[p]) && d.log[p].index == i
  }

  /** The run can be worked on: not over, and its workflow still there. */
  predicate Workable(c: Cluster) {
    !AR.Terminal(c.store.run.phase) && c.workflow.Some?
  }

  /** The controller records the current stage's AgentRun, creating it if need be. */
  lemma Record(c0: Cluster, c: Cluster) returns (d: Cluster)
    requires Leads(c0, c) && Base(c) && Workable(c)
    requires Current(c) < |Plan(c)| && !Recorded(c, Current(c))
    ensures Leads(c0, d) && Base(d) && Workable(d) && d == Next(c, Reconcile(MAKE, true))
    ensures Plan(d) == Plan(c) && Current(d) == Current(c) && Recorded(d, Current(c))
    ensures d.log == c.log && d.sandboxes == c.sandboxes
    ensures var k, plan := Current(c), Plan(c);
      d.store.agentRuns == WithAgentRun(c.store.agentRuns, plan[k], k, |plan|)
    ensures forall i :: Current(c) < i ==> !Recorded(d, i)
  {
    var s := Reconcile(MAKE, true);
    LeadsStep(c0, c, s);
    StepKeepsBase(c, s);
    d := Next(c, s);
    var run := Initialized(c.store.run, c.workflow.value);
    InitializedKeepsSplit(c.store.run, c.workflow.value, c.log);
    if c.store.run.stages == [] { CurrentUnique([], 0); }
    var k := CurrentIndex(run.stages);
    assert Names(run.stages) == Plan(c);
    var stage := run.stages[k].(agentRun := Some(run.stages[k].name), phase := AR.Pending);
    assert d.store.run.stages == run.stages[k := stage];
    UpdateKeepsSplit(run.stages, k, stage, c.log);
    assert Names(d.store.run.stages) == Plan(c);
  }

  /** The controller moves past a current stage whose AgentRun has succeeded. */
  lemma Pass(c0: Cluster, c: Cluster) returns (d: Cluster)
    requires Leads(c0, c) && Base(c) && Workable(c) && CurrentSucceeded(c)
    ensures Leads(c0, d) && Base(d) && Workable(d)
    ensures Plan(d) == Plan(c) && Current(d) == Current(c) + 1
    ensures d.store.agentRuns == c.store.agentRuns && d.log == c.log && d.sandboxes == c.sandboxes
    ensures forall i :: Current(d) <= i ==> !Recorded(d, i)
  {
    var b := c;
    if !Recorded(c, Current(c)) { b := Record(c0, c); }
    d := Mirror(c0, b);
  }

  lemma Mirror(c0: Cluster, c: Cluster) returns (d: Cluster)
    requires Leads(c0, c) && Base(c) && Workable(c)
    requires CurrentSucceeded(c) && Recorded(c, Current(c))
    ensures Leads(c0, d) && Base(d) && Workable(d)
    ensures Plan(d) == Plan(c) && Current(d) == Current(c) + 1
    ensures d.store.agentRuns == c.store.agentRuns && d.log == c.log && d.sandboxes == c.sandboxes
    ensures forall i :: Current(d) <= i ==> !Recorded(d, i)
  {
    var s := Reconcile(MAKE, true);
    LeadsStep(c0, c, s);
    StepKeepsBase(c, s);
    d := Next(c, s);
    var stages, k := c.store.run.stages, Current(c);
    assert StageSound(stages[k], c.log) && ChildSound(c, Plan(c)[k], c.store.agentRuns[Plan(c)[k]]);
    MirrorSound(c, c.store.run.(current := stages[k].name, phase := AR.Running), k);
    var stage := stages[k].(phase := AR.Succeeded);
    assert d.store.run.stages == stages[k := stage];
    UpdateKeepsSplit(stages, k, stage, c.log);
    assert Names(d.store.run.stages) == Plan(c);
  }

  // ---------------------------------------------------------------- the conditions are exact

  /** From a crossed state the sequencer works its way to the next stage and creates a second live AgentRun. */
  lemma {:induction false} CrossedGoesWrong(c0: Cluster, c: Cluster) returns (d: Cluster)
    requires Leads(c0, c) && Base(c) && c.workflow.Some? && Crossed(c)
    ensures Leads(c0, d) && !AtMostOneLive(d)
    decreases |Plan(c)| - Current(c)
  {
    if CurrentSucceeded(c) {
      var b := Pass(c0, c);
      StillCrossed(c, b);
      d := CrossedGoesWrong(c0, b);
    } else {
      d := SecondLive(c0, c);
    }
  }

  lemma StillCrossed(c: Cluster, d: Cluster)
    requires Crossed(c) && CurrentSucceeded(c) && !AR.Terminal(d.store.run.phase) && Plan(d) == Plan(c)
    requires Current(d) == Current(c) + 1 && d.store.agentRuns == c.store.agentRuns
    requires forall i :: Current(d) <= i ==> !Recorded(d, i)
    ensures Crossed(d)
  {
    var n :| Live(c, n);
    assert Live(d, n);
  }

  lemma SecondLive(c0: Cluster, c: Cluster) returns (d: Cluster)
    requires Leads(c0, c) && Base(c) && c.workflow.Some? && Crossed(c) && !CurrentSucceeded(c)
    ensures Leads(c0, d) && !AtMostOneLive(d)
  {
    var n :| Live(c, n);
    assert NextStage(c) == Current(c);
    d := Record(c0, c);
    assert Live(d, Plan(c)[Current(c)]) && Live(d, n);
  }

  /** A state with at most one live AgentRun can, undisturbed, come to have two, exactly if it is crossed. */
  lemma CrossedExactly(c: Cluster)
    requires Base(c) && AtMostOneLive(c) && c.workflow.Some?
    ensures Crossed(c) <==> exists d :: Leads(c, d) && !AtMostOneLive(d)
  {
    LeadsNowhere(c);
    if Crossed(c) {
      var d := CrossedGoesWrong(c, c);
    } else if d :| Leads(c, d) && !AtMostOneLive(d) {
      var steps :| Legal(c, steps) && Undisturbed(c, steps) && After(c, steps) == d;
      UndisturbedIsHarmless(c, steps);
      RunKeepsOneLive(c, steps);
    }
  }

  lemma {:induction false} UndisturbedIsHarmless(c: Cluster, steps: seq<Step>)
    requires Legal(c, steps) && Undisturbed(c, steps)
    ensures NeverCrossed(c, steps) && NeverPrimed(c, steps)
    decreases |steps|
  {
    if steps != [] { UndisturbedIsHarmless(Next(c, steps[0]), steps[1..]); }
  }

  /** A process starts although the token is gone. */
  lemma LateStart(log: seq<LogEntry>, n: string, i: nat)
    requires RevokedBelow(log, i)
    ensures !TokenSafe(log + [PodStarted(n, i)])
  {
    var p :| 0 <= p < |log| && Revokes(log[p]) && log[p].index < i;
    var late := log + [PodStarted(n, i)];
    assert late[p] == log[p] && late[|log|] == PodStarted(n, i);
  }

  lemma StillRevoked(log: seq<LogEntry>, longer: seq<LogEntry>, i: nat)
    requires log <= longer && RevokedBelow(log, i)
    ensures RevokedBelow(longer, i)
  {
    var p :| 0 <= p < |log| && Revokes(log[p]) && log[p].index < i;
    assert longer[p] == log[p];
  }

  lemma {:induction false} RunKeepsPlaced(c: Cluster, steps: seq<Step>)
    requires Base(c) && Placed(c) && Legal(c, steps)
    ensures Placed(After(c, steps))
    decreases |steps|
  {
    if steps != [] {
      StepKeepsBase(c, steps[0]);
      StepKeepsPlaced(c, steps[0]);
      RunKeepsPlaced(Next(c, steps[0]), steps[1..]);
    }
  }

  lemma LeadsToPlaced(c0: Cluster, c: Cluster)
    requires Base(c0) && Placed(c0) && Leads(c0, c)
    ensures Placed(c)
  {
    var steps :| Legal(c0, steps) && Undisturbed(c0, steps) && After(c0, steps) == c;
    RunKeepsPlaced(c0, steps);
  }

  /** The token is gone and the way to a fresh stage is open: the sequencer gets there and starts it. */
  lemma {:induction false} WalkTo(c0: Cluster, c: Cluster, m: nat) returns (d: Cluster)
    requires Base(c0) && Placed(c0) && Leads(c0, c) && Base(c) && c.workflow.Some?
    requires Fresh(c, m) && Open(c, m) && RevokedBelow(c.log, m)
    ensures Leads(c0, d) && !TokenSafe(d.log)
    decreases m - Current(c)
  {
    var k, n := Current(c), Plan(c)[Current(c)];
    LeadsToPlaced(c0, c);
    if k == m {
      d := ReachFresh(c0, c);
    } else {
      var b := c;
      if n !in c.store.agentRuns { b := Record(c0, c); RecordKeepsOpen(c, b, m); }
      b := PassBy(c0, b, m);
      d := WalkTo(c0, b, m);
    }
  }

  /** The current stage's AgentRun succeeds, and the sequencer moves past it. */
  lemma PassBy(c0: Cluster, c: Cluster, m: nat) returns (d: Cluster)
    requires Leads(c0, c) && Base(c) && c.workflow.Some? && Current(c) < m
    requires Fresh(c, m) && Open(c, m) && RevokedBelow(c.log, m) && Plan(c)[Current(c)] in c.store.agentRuns
    ensures Leads(c0, d) && Base(d) && d.workflow.Some? && Current(d) == Current(c) + 1
    ensures Fresh(d, m) && Open(d, m) && RevokedBelow(d.log, m)
  {
    var n := Plan(c)[Current(c)];
    var b := Succeed(c0, c, n);
    OthersKeepOpen(c0, c, b, n, m);
    StillRevoked(c.log, b.log, m);
    d := Pass(c0, b);
    PassKeepsOpen(b, d, m);
  }

  /** The current stage is fresh: it gets its AgentRun, and its process starts. */
  lemma ReachFresh(c0: Cluster, c: Cluster) returns (d: Cluster)
    requires Leads(c0, c) && Base(c) && c.workflow.Some?
    requires Fresh(c, Current(c)) && Open(c, Current(c)) && RevokedBelow(c.log, Current(c))
    ensures Leads(c0, d) && !TokenSafe(d.log)
  {
    var n := Plan(c)[Current(c)];
    var b := Record(c0, c);
    assert n in b.sandboxes ==> SandboxSound(c, n, c.sandboxes[n]);
    LateStart(b.log, n, Current(c));
    d := StartUp(c0, b, b, n, Current(c));
  }

  lemma RecordKeepsOpen(c: Cluster, d: Cluster, m: nat)
    requires Base(c) && Placed(c) && Fresh(c, m) && Open(c, m) && Current(c) < m
    requires Plan(c)[Current(c)] !in c.store.agentRuns && Plan(d) == Plan(c) && Current(d) == Current(c)
    requires d.store.agentRuns == WithAgentRun(c.store.agentRuns, Plan(c)[Current(c)], Current(c), |Plan(c)|)
    requires d.sandboxes == c.sandboxes && !AR.Terminal(d.store.run.phase)
    requires forall i :: Current(c) < i ==> !Recorded(d, i)
    ensures Fresh(d, m) && Open(d, m)
  {
    var n := Plan(c)[Current(c)];
    assert n in c.sandboxes ==> SandboxSound(c, n, c.sandboxes[n]);
    assert !Dead(d, n);
  }

  /** n's own AgentRun and Sandbox matter to no other stage. */
  lemma OthersKeepOpen(c0: Cluster, c: Cluster, d: Cluster, n: string, m: nat)
    requires Further(c0, c, d, n) && Fresh(c, m) && Open(c, m)
    requires n in d.store.agentRuns && Dead(d, n) ==> !OnPath(c, n, m)
    ensures Fresh(d, m) && Open(d, m)
  {
    forall x | x in d.store.agentRuns && x != n ensures Dead(d, x) == Dead(c, x) {}
    forall l | Current(c) <= l < m && Plan(c)[l] == n ensures n in d.store.agentRuns ==> !Dead(d, n) {
      assert OnPath(c, n, m);
    }
  }

  lemma PassKeepsOpen(c: Cluster, d: Cluster, m: nat)
    requires Fresh(c, m) && Open(c, m) && Current(d) == Current(c) + 1 <= m && Plan(d) == Plan(c)
    requires d.store.agentRuns == c.store.agentRuns && d.sandboxes == c.sandboxes && !AR.Terminal(d.store.run.phase)
    requires forall i :: Current(d) <= i ==> !Recorded(d, i)
    ensures Fresh(d, m) && Open(d, m)
  {
    assert forall n :: n in c.store.agentRuns ==> Dead(d, n) == Dead(c, n);
  }

  // ---------------------------------------------------------------- every primed state goes wrong

  /** A process that is threatening a stage revokes the token, and leaves the way open. */
  lemma ThreatToFresh(c0: Cluster, c: Cluster, n: string, m: nat) returns (d: Cluster)
    requires Leads(c0, c) && Base(c) && Placed(c) && Fresh(c, m) && Open(c, m) && Threatens(c, n, m)
    ensures Leads(c0, d) && Base(d) && d.workflow == c.workflow
    ensures Fresh(d, m) && Open(d, m) && RevokedBelow(d.log, m)
  {
    if Unfinished(c, n) && c.sandboxes[n].index < m && (!OnPath(c, n, m) || !Bound(c, n)) {
      d := Fail(c0, c, c, n);
      FailureSpares(c, d, n, m);
      OthersKeepOpen(c0, c, d, n, m);
      assert Revokes(d.log[|d.log| - 1]);
    } else if MayMake(c, n) && !OnPath(c, n, m) {
      d := MakeAndFail(c0, c, n);
      OthersKeepOpen(c0, c, d, n, m);
      assert Revokes(d.log[|d.log| - 1]);
    } else {
      d := LastSucceeds(c0, c, n, m);
    }
  }

  /** An orphan's failure is nothing to an AgentRun that may have its own Sandbox made. */
  lemma FailureSpares(c: Cluster, d: Cluster, n: string, m: nat)
    requires Base(c) && Fresh(c, m) && Open(c, m) && Unfinished(c, n) && (!OnPath(c, n, m) || !Bound(c, n))
    requires d.store == c.store && d.sandboxes == c.sandboxes[n := c.sandboxes[n].(pod := Exited(1))]
    ensures n in d.store.agentRuns && Dead(d, n) ==> !OnPath(c, n, m)
  {
    if OnPath(c, n, m) && n in c.store.agentRuns {
      var l :| Current(c) <= l < m && Plan(c)[l] == n;
      assert !Dead(c, Plan(c)[l]);
    }
  }

  /** The process of a stage on the way takes itself for the last one: its success revokes the token. */
  lemma LastSucceeds(c0: Cluster, c: Cluster, n: string, m: nat) returns (d: Cluster)
    requires Leads(c0, c) && Base(c) && Placed(c) && Fresh(c, m) && Open(c, m) && OnPath(c, n, m)
    requires
      || (Unfinished(c, n) && Bound(c, n) && c.sandboxes[n].index < m && Last(c.sandboxes[n].index, c.sandboxes[n].count))
      || (MayMake(c, n) && c.store.agentRuns[n].index < m && Last(c.store.agentRuns[n].index, c.store.agentRuns[n].count))
    ensures Leads(c0, d) && Base(d) && d.workflow == c.workflow
    ensures Fresh(d, m) && Open(d, m) && RevokedBelow(d.log, m)
  {
    var l :| Current(c) <= l < m && Plan(c)[l] == n;
    assert !Dead(c, Plan(c)[l]);
    if Unfinished(c, n) { assert PlacedAt(c, c.sandboxes[n].index, c.sandboxes[n].count); }
    assert PlacedAt(c, c.store.agentRuns[n].index, c.store.agentRuns[n].count);
    d := Succeed(c0, c, n);
    OthersKeepOpen(c0, c, d, n, m);
  }

  /** A process that may run fails and revokes the token, and who else may start still may. */
  lemma OverdueGoesWrong(c0: Cluster, c: Cluster) returns (d: Cluster)
    requires Leads(c0, c) && Base(c) && Placed(c) && Overdue(c)
    ensures Leads(c0, d) && !TokenSafe(d.log)
  {
    var n, i: nat :| MayStart(c, n, i) && Preceded(c, i);
    var b := c;
    if !RevokedBelow(c.log, i) {
      var m, j: nat :| MayRun(c, m, j) && j < i;
      b := Precede(c0, c, n, i, m, j);
    }
    LateStart(b.log, n, i);
    d := StartUp(c0, b, b, n, i);
  }

  lemma Precede(c0: Cluster, c: Cluster, n: string, i: nat, m: string, j: nat) returns (d: Cluster)
    requires Leads(c0, c) && Base(c) && Placed(c) && MayStart(c, n, i) && MayRun(c, m, j) && j < i
    ensures Leads(c0, d) && Base(d) && MayStart(d, n, i) && RevokedBelow(d.log, i)
  {
    if Unfinished(c, m) && c.sandboxes[m].index == j {
      d := Fail(c0, c, c, m);
      EndedElsewhere(c, d, n, i, m);
    } else {
      d := MakeAndFail(c0, c, m);
      assert n != m;
    }
    assert Revokes(d.log[|d.log| - 1]);
  }

  lemma MakeAndFail(c0: Cluster, c: Cluster, n: string) returns (d: Cluster)
    requires Leads(c0, c) && Base(c) && MayMake(c, n)
    ensures Further(c0, c, d, n) && n in d.sandboxes && d.sandboxes[n].pod.Exited?
    ensures |d.log| > |c.log| && d.log[|d.log| - 1] == PodFinished(n, c.store.agentRuns[n].index, 1, true)
  {
    var b := Make(c0, c, c, n);
    d := Fail(c0, c, b, n);
  }

  /** Who may start still may once a lower process has ended, even an orphan of the same name. */
  lemma EndedElsewhere(c: Cluster, d: Cluster, n: string, i: nat, m: string)
    requires Placed(c) && MayStart(c, n, i) && Unfinished(c, m) && c.sandboxes[m].index < i
    requires d.store == c.store && d.sandboxes == c.sandboxes[m := c.sandboxes[m].(pod := Exited(1))]
    ensures MayStart(d, n, i)
  {
  }

  /** From every primed state some stage starts after a revocation. */
  lemma PrimedGoesWrong(c0: Cluster, c: Cluster) returns (d: Cluster)
    requires Base(c0) && Placed(c0) && Leads(c0, c) && Base(c) && c.workflow.Some? && Primed(c)
    ensures Leads(c0, d) && !TokenSafe(d.log)
  {
    LeadsToPlaced(c0, c);
    if Overdue(c) {
      d := OverdueGoesWrong(c0, c);
    } else {
      var m: nat :| Fresh(c, m) && Open(c, m) && Threatened(c, m);
      var b := c;
      if !RevokedBelow(c.log, m) {
        var n :| Threatens(c, n, m);
        b := ThreatToFresh(c0, c, n, m);
      }
      d := WalkTo(c0, b, m);
    }
  }

  /** A safe state can, undisturbed, come to start a stage without the token, exactly if it is primed. */
  lemma PrimedExactly(c: Cluster)
    requires Base(c) && Placed(c) && TokenSafe(c.log) && c.workflow.Some?
    ensures Primed(c) <==> exists d :: Leads(c, d) && !TokenSafe(d.log)
  {
    LeadsNowhere(c);
    if Primed(c) {
      var d := PrimedGoesWrong(c, c);
    } else if d :| Leads(c, d) && !TokenSafe(d.log) {
      var steps :| Legal(c, steps) && Undisturbed(c, steps) && After(c, steps) == d;
      UndisturbedIsHarmless(c, steps);
      RunKeepsToken(c, steps);
    }
  }
}
