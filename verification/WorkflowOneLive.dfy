/**
 At most one stage AgentRun is live, whatever is lost, edited or removed.

 The sequencer keeps this by itself; only an edit of the workflow or the removal of an AgentRun
 can undo it, and only by leaving the run `Crossed`.  Sandboxes play no part in it.
 */
module WorkflowOneLive {
  import opened Common
  import AR = AgentRun
  import opened Workflow

  ghost predicate Live(c: Cluster, n: string) {
    n in c.store.agentRuns && !AR.Terminal(c.store.agentRuns[n].status.phase)
  }

  ghost predicate AtMostOneLive(c: Cluster) {
    forall m, n :: Live(c, m) && Live(c, n) ==> m == n
  }

  ghost function Current(c: Cluster): nat {
    CurrentIndex(c.store.run.stages)
  }

  // ---------------------------------------------------------------- undisturbed steps

  /** No edit of the workflow, no removal of an AgentRun, and of a Sandbox only once its AgentRun is gone. */
  predicate Ordinary(c: Cluster, s: Step) {
    !s.EditWorkflow? && !Removes(c, s) && !TakesSandbox(c, s)
  }

  ghost predicate Undisturbed(c: Cluster, steps: seq<Step>)
    requires Legal(c, steps)
    decreases |steps|
  {
    steps != [] ==> Ordinary(c, steps[0]) && Undisturbed(Next(c, steps[0]), steps[1..])
  }

  /** The sequencer, the AgentRun controller and the pods lead from one state to another by themselves. */
  ghost predicate Leads(c: Cluster, d: Cluster) {
    exists steps :: Legal(c, steps) && Undisturbed(c, steps) && After(c, steps) == d
  }

  lemma LeadsNowhere(c: Cluster)
    ensures Leads(c, c)
  {
    assert Legal(c, []) && Undisturbed(c, []) && After(c, []) == c;
  }

  lemma {:induction false} AppendStep(c: Cluster, steps: seq<Step>, s: Step)
    requires Legal(c, steps) && Enabled(After(c, steps), s)
    ensures Legal(c, steps + [s])
    ensures After(c, steps + [s]) == Next(After(c, steps), s)
    ensures Undisturbed(c, steps) && Ordinary(After(c, steps), s) ==> Undisturbed(c, steps + [s])
    decreases |steps|
  {
    if steps == [] {
      assert steps + [s] == [s] && [s][1..] == [];
      assert Legal(Next(c, s), [s][1..]);
    } else {
      AppendStep(Next(c, steps[0]), steps[1..], s);
      assert (steps + [s])[1..] == steps[1..] + [s];
    }
  }

  lemma LeadsStep(c: Cluster, d: Cluster, s: Step)
    requires Leads(c, d) && Enabled(d, s) && Ordinary(d, s)
    ensures Leads(c, Next(d, s))
  {
    var steps :| Legal(c, steps) && Undisturbed(c, steps) && After(c, steps) == d;
    AppendStep(c, steps, s);
  }

  // ---------------------------------------------------------------- at most one live AgentRun

  predicate Done(agentRuns: map<string, StageRun>, n: string) {
    n in agentRuns && agentRuns[n].status.phase == AR.Succeeded
  }

  /** The first stage from i on whose AgentRun has not succeeded. */
  function FirstOpen(plan: seq<string>, agentRuns: map<string, StageRun>, i: nat): (j: nat)
    ensures i <= j && forall m :: i <= m < j ==> m < |plan| && Done(agentRuns, plan[m])
    ensures j < |plan| ==> !Done(agentRuns, plan[j])
    decreases |plan| - i
  {
    if i < |plan| && Done(agentRuns, plan[i]) then FirstOpen(plan, agentRuns, i + 1) else i
  }

  ghost function NextStage(c: Cluster): nat {
    FirstOpen(Plan(c), c.store.agentRuns, Current(c))
  }

  /** An AgentRun is live, and the next stage to work on is yet to get its own. */
  ghost predicate Crossed(c: Cluster) {
    && !AR.Terminal(c.store.run.phase)
    && NextStage(c) < |Plan(c)| && Plan(c)[NextStage(c)] !in c.store.agentRuns && !Recorded(c, NextStage(c))
    && exists n :: Live(c, n)
  }

  ghost predicate OneLive(c: Cluster) {
    Base(c) && AtMostOneLive(c) && !Crossed(c)
  }

  lemma {:induction false} FirstOpenSame(plan: seq<string>, a: map<string, StageRun>, b: map<string, StageRun>, i: nat)
    requires forall n :: Done(a, n) <==> Done(b, n)
    ensures FirstOpen(plan, a, i) == FirstOpen(plan, b, i)
    decreases |plan| - i
  {
    if i < |plan| && Done(a, plan[i]) {
      FirstOpenSame(plan, a, b, i + 1);
    }
  }

  lemma StepKeepsOneLive(c: Cluster, s: Step)
    requires OneLive(c) && Enabled(c, s)
    requires Ordinary(c, s) || !Crossed(Next(c, s))
    ensures OneLive(Next(c, s))
  {
    StepKeepsBase(c, s);
    var d := Next(c, s);
    match s {
      case Reconcile(e, lands) => ReconcileKeepsOneLive(c, e, lands);
      case ReconcileAgentRun(n, v, patched) =>
        if Expires(c, s) {
          assert forall m :: Live(d, m) ==> Live(c, m);
        } else {
          AR.ReconcileKeepsInv(c.store.agentRuns[n].status, v, patched);
          StatusKeepsOneLive(c, d, n);
        }
      case StartPod(_) => SameKeepsOneLive(c, d);
      case FinishPod(_, _) => SameKeepsOneLive(c, d);
      case DeleteSandbox(_) => SameKeepsOneLive(c, d);
      case EditWorkflow(_) => assert forall m :: Live(d, m) ==> Live(c, m);
      case DeleteAgentRun(_) => assert forall m :: Live(d, m) ==> Live(c, m);
    }
  }

  /** Sandboxes and their processes play no part in it. */
  lemma SameKeepsOneLive(c: Cluster, d: Cluster)
    requires OneLive(c) && Base(d) && d.workflow == c.workflow && d.store == c.store
    ensures OneLive(d)
  {
    assert NextStage(d) == NextStage(c);
    assert forall m :: Live(d, m) <==> Live(c, m);
  }

  lemma StatusKeepsOneLive(c: Cluster, d: Cluster, n: string)
    requires OneLive(c) && Base(d) && n in c.store.agentRuns && n in d.store.agentRuns
    requires d.workflow == c.workflow
    requires d.store == c.store.(agentRuns := c.store.agentRuns[n := d.store.agentRuns[n]])
    requires AR.Advances(c.store.agentRuns[n].status, d.store.agentRuns[n].status)
    ensures OneLive(d)
  {
    assert forall m :: Live(d, m) ==> Live(c, m);
    if Done(d.store.agentRuns, n) && !Done(c.store.agentRuns, n) {
      assert Live(c, n) && forall m :: !Live(d, m);
    } else {
      FirstOpenSame(Plan(c), c.store.agentRuns, d.store.agentRuns, Current(c));
    }
  }

  lemma ReconcileKeepsOneLive(c: Cluster, e: Reading, lands: bool)
    requires OneLive(c) && Base(Next(c, Reconcile(e, lands)))
    ensures OneLive(Next(c, Reconcile(e, lands)))
  {
    var d := Next(c, Reconcile(e, lands));
    ReconcileEffect(c, e, lands);
    ReconcileAdvances(c, e, lands);
    if d.store.agentRuns == c.store.agentRuns {
      MovingKeepsOneLive(c, d);
    } else {
      CreationKeepsOneLive(c, d);
    }
  }

  lemma MovingKeepsOneLive(c: Cluster, d: Cluster)
    requires OneLive(c) && Base(d) && d.store.agentRuns == c.store.agentRuns && Plan(d) == Plan(c)
    requires Current(d) == Current(c) || (Current(d) == Current(c) + 1 && CurrentSucceeded(c))
    requires Advances(c.store.run, d.store.run)
    ensures OneLive(d)
  {
    assert NextStage(d) == NextStage(c);
    assert forall m :: Live(d, m) <==> Live(c, m);
    assert Recorded(c, NextStage(c)) ==> Recorded(d, NextStage(c));
  }

  lemma CreationKeepsOneLive(c: Cluster, d: Cluster)
    requires OneLive(c) && Base(d) && CreatesCurrent(c, d.store)
    requires Plan(d) == Plan(c) && (Current(d) == Current(c) || CurrentSucceeded(c))
    ensures OneLive(d)
  {
    var k, plan := Current(c), Plan(c);
    assert NextStage(c) == k;
    assert forall m :: !Live(c, m);
    forall m | Live(d, m) ensures m == plan[k] {
      if m != plan[k] { assert Live(c, m); }
    }
    assert NextStage(d) == k;
  }

  /** No edit and no removal leaves the run crossed. */
  ghost predicate NeverCrossed(c: Cluster, steps: seq<Step>)
    requires Legal(c, steps)
    decreases |steps|
  {
    steps != [] ==>
      && (Ordinary(c, steps[0]) || !Crossed(Next(c, steps[0])))
      && NeverCrossed(Next(c, steps[0]), steps[1..])
  }

  lemma {:induction false} RunKeepsOneLive(c: Cluster, steps: seq<Step>)
    requires OneLive(c) && Legal(c, steps) && NeverCrossed(c, steps)
    ensures OneLive(After(c, steps))
    decreases |steps|
  {
    if steps != [] {
      StepKeepsOneLive(c, steps[0]);
      RunKeepsOneLive(Next(c, steps[0]), steps[1..]);
    }
  }

  /** Every run of the full environment has at most one live AgentRun, as long as no edit or removal crosses it. */
  lemma OneLiveUnlessCrossed(w: Option<seq<string>>, steps: seq<Step>)
    requires ValidWorkflow(w) && Legal(Init(w), steps) && NeverCrossed(Init(w), steps)
    ensures AtMostOneLive(After(Init(w), steps))
  {
    InitBase(w);
    RunKeepsOneLive(Init(w), steps);
  }
}
