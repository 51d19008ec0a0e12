/**
 Workflow safety in a caller's terms: edits and removals that leave a run neither crossed nor
 primed, and what every run with no others keeps.
 */
module WorkflowSafety {
  import opened Common
  import AR = AgentRun
  import opened Workflow
  import opened WorkflowOneLive
  import opened WorkflowToken

  // ---------------------------------------------------------------- edits and removals that do no harm

  /** An edit once the snapshot is persisted, or before anything was created. */
  ghost predicate CarefulEdit(c: Cluster) {
    c.store.run.stages != [] || (c.store.agentRuns == map[] && c.sandboxes == map[] && c.log == [])
  }

  /** The removal of an AgentRun that is on record, or that the plan no longer needs. */
  ghost predicate CarefulRemoval(c: Cluster, n: string) {
    || (exists i :: 0 <= i < |Plan(c)| && Plan(c)[i] == n && Recorded(c, i))
    || n !in Plan(c)[Current(c)..]
  }

  /** The deletion of a Sandbox that is on record, or whose AgentRun is over. */
  ghost predicate CarefulDeletion(c: Cluster, n: string) {
    n in c.store.agentRuns && (c.store.agentRuns[n].status.sandbox || AR.Terminal(c.store.agentRuns[n].status.phase))
  }

  ghost predicate Careful(c: Cluster, s: Step) {
    && (s.EditWorkflow? ==> CarefulEdit(c))
    && (Removes(c, s) ==> Current(c) <= |Plan(c)| && CarefulRemoval(c, s.name))
    && (TakesSandbox(c, s) ==> CarefulDeletion(c, s.name))
  }

  lemma CarefulNeverHarms(c: Cluster, s: Step)
    requires OneLive(c) && TokenInv(c) && Enabled(c, s) && Careful(c, s)
    ensures Ordinary(c, s) || (!Crossed(Next(c, s)) && !Primed(Next(c, s)))
  {
    if s.EditWorkflow? {
      EditHarmless(c, s.workflow);
    } else if Removes(c, s) {
      RemovalHarmless(c, s.name);
    } else if TakesSandbox(c, s) {
      DeletionHarmless(c, s.name);
    }
  }

  lemma EditHarmless(c: Cluster, w: Option<seq<string>>)
    requires OneLive(c) && TokenInv(c) && CarefulEdit(c)
    ensures !Crossed(c.(workflow := w)) && !Primed(c.(workflow := w))
  {
    var d := c.(workflow := w);
    if c.store.run.stages != [] {
      assert Plan(d) == Plan(c) && NextStage(d) == NextStage(c);
      assert forall n :: Live(d, n) <==> Live(c, n);
      if Primed(d) { FrozenPlanWasPrimed(c, d); }
    } else {
      assert forall n :: !Live(d, n);
    }
  }

  /** What matters to the run is the plan, not where it comes from. */
  lemma FrozenPlanWasPrimed(c: Cluster, d: Cluster)
    requires Primed(d) && d == c.(workflow := d.workflow) && Plan(d) == Plan(c)
    ensures Primed(c)
  {
    if Overdue(d) {
      CalmerWasOverdue(c, d);
    } else {
      var m: nat :| Fresh(d, m) && Open(d, m) && Threatened(d, m);
      SamePath(c, d);
      assert Fresh(c, m) && Open(c, m);
      if n :| Threatens(d, n, m) { assert Threatens(c, n, m); }
      assert Threatened(c, m);
    }
  }

  lemma DeletionHarmless(c: Cluster, n: string)
    requires OneLive(c) && TokenInv(c) && n in c.sandboxes && !c.sandboxes[n].orphan && CarefulDeletion(c, n)
    ensures !Crossed(Next(c, DeleteSandbox(n))) && !Primed(Next(c, DeleteSandbox(n)))
  {
    var d := Next(c, DeleteSandbox(n));
    assert NextStage(d) == NextStage(c) && forall m :: Live(d, m) <==> Live(c, m);
    if Primed(d) {
      DeletionSubsides(c, n);
      SubsidingWasPrimed(c, d);
    }
  }

  lemma DeletionSubsides(c: Cluster, n: string)
    requires n in c.sandboxes && CarefulDeletion(c, n)
    ensures Subsides(c, Next(c, DeleteSandbox(n)))
  {
    SamePath(c, Next(c, DeleteSandbox(n)));
  }

  /** A stage whose AgentRun is on record does not come to be fresh, and one still to come never had one. */
  lemma RemovalHarmless(c: Cluster, n: string)
    requires OneLive(c) && TokenInv(c) && n in c.store.agentRuns
    requires Current(c) <= |Plan(c)| && CarefulRemoval(c, n)
    ensures !Crossed(Without(c, n)) && !Primed(Without(c, n))
  {
    var k, plan := Current(c), Plan(c);
    if k < |plan| && n == plan[k] {
      RecordedIsCurrent(c, n);
      assert NextStage(Without(c, n)) == k;
      StoppedHarmless(c, n);
    } else {
      assert n !in plan[k..] by {
        if i :| 0 <= i < |plan| && plan[i] == n && Recorded(c, i) { RecordedUpToCurrent(c, i); }
      }
      forall i | k <= i < |plan| ensures plan[i] != n { assert plan[i] == plan[k..][i - k]; }
      UnplannedHarmless(c, n);
    }
  }

  /** The current stage's AgentRun is gone: the sequencer cannot get past it. */
  lemma StoppedHarmless(c: Cluster, n: string)
    requires !Primed(c) && n in c.store.agentRuns
    requires Current(c) < |Plan(c)| && Plan(c)[Current(c)] == n && Recorded(c, Current(c))
    ensures !Primed(Without(c, n))
  {
    var d := Without(c, n);
    if Overdue(d) { CalmerWasOverdue(c, d); }
  }

  ghost predicate Unplanned(c: Cluster, n: string) {
    n in c.store.agentRuns && forall i :: Current(c) <= i < |Plan(c)| ==> Plan(c)[i] != n
  }

  lemma UnplannedHarmless(c: Cluster, n: string)
    requires !Crossed(c) && !Primed(c) && Unplanned(c, n)
    ensures !Crossed(Without(c, n)) && !Primed(Without(c, n))
  {
    var d := Without(c, n);
    assert forall m :: Live(d, m) ==> Live(c, m);
    FirstOpenKept(Plan(c), c.store.agentRuns, n, Current(c));
    if Primed(d) { UnplannedWasPrimed(c, n); }
  }

  lemma UnplannedWasPrimed(c: Cluster, n: string)
    requires Unplanned(c, n) && Primed(Without(c, n))
    ensures Primed(c)
  {
    var d := Without(c, n);
    if Overdue(d) {
      CalmerWasOverdue(c, d);
    } else {
      var m: nat :| Fresh(d, m) && Open(d, m) && Threatened(d, m);
      UnplannedOpen(c, n, m);
      if x :| Threatens(d, x, m) { UnplannedThreatens(c, n, x, m); }
      assert Threatened(c, m);
    }
  }

  lemma UnplannedOpen(c: Cluster, n: string, m: nat)
    requires Unplanned(c, n) && Fresh(Without(c, n), m) && Open(Without(c, n), m)
    ensures Fresh(c, m) && Open(c, m)
  {
    var d := Without(c, n);
    assert Plan(d) == Plan(c);
    forall l | Current(c) <= l < m
      ensures if Plan(c)[l] in c.store.agentRuns then !Dead(c, Plan(c)[l]) else !Recorded(c, l)
    {
      assert Plan(d)[l] != n;
      assert Plan(d)[l] in d.store.agentRuns <==> Plan(c)[l] in c.store.agentRuns;
    }
  }

  lemma UnplannedThreatens(c: Cluster, n: string, x: string, m: nat)
    requires Unplanned(c, n) && m <= |Plan(c)| && Threatens(Without(c, n), x, m)
    ensures Threatens(c, x, m)
  {
    var d := Without(c, n);
    SamePath(c, d);
    assert !OnPath(c, n, m);
  }

  lemma RecordedUpToCurrent(c: Cluster, i: nat)
    requires Base(c) && Recorded(c, i)
    ensures i <= Current(c)
  {
  }

  lemma RecordedIsCurrent(c: Cluster, n: string)
    requires Base(c) && Placed(c) && Current(c) < |Plan(c)| && n == Plan(c)[Current(c)] && CarefulRemoval(c, n)
    ensures Recorded(c, Current(c))
  {
    assert Plan(c)[Current(c)..][0] == n;
    assert ValidWorkflow(Some(Plan(c)));
  }

  lemma {:induction false} FirstOpenKept(plan: seq<string>, a: map<string, StageRun>, n: string, i: nat)
    requires forall j :: i <= j < |plan| ==> plan[j] != n
    ensures FirstOpen(plan, a - {n}, i) == FirstOpen(plan, a, i)
    ensures var j := FirstOpen(plan, a, i); i <= j && (j < |plan| ==> (plan[j] in a - {n} <==> plan[j] in a))
    decreases |plan| - i
  {
    if i < |plan| && Done(a, plan[i]) { FirstOpenKept(plan, a, n, i + 1); }
  }

  ghost predicate AllCareful(c: Cluster, steps: seq<Step>)
    requires Legal(c, steps)
    decreases |steps|
  {
    steps != [] ==> Careful(c, steps[0]) && AllCareful(Next(c, steps[0]), steps[1..])
  }

  lemma {:induction false} CarefulRunKeeps(c: Cluster, steps: seq<Step>)
    requires OneLive(c) && TokenInv(c) && Legal(c, steps) && AllCareful(c, steps)
    ensures OneLive(After(c, steps)) && TokenInv(After(c, steps))
    ensures NeverCrossed(c, steps) && NeverPrimed(c, steps)
    decreases |steps|
  {
    if steps != [] {
      CarefulNeverHarms(c, steps[0]);
      StepKeepsOneLive(c, steps[0]);
      StepKeepsToken(c, steps[0]);
      CarefulRunKeeps(Next(c, steps[0]), steps[1..]);
    }
  }

  /**
   Whatever patches and answers are lost: if the workflow is edited only before anything was
   created or once the snapshot is persisted, only AgentRuns that are on record (or no longer
   needed) are removed, and so only Sandboxes that are on record (or whose AgentRun is over or
   gone), then at most one AgentRun is live and no stage starts without the token.
   */
  lemma CarefulRunsAreSafe(w: Option<seq<string>>, steps: seq<Step>)
    requires ValidWorkflow(w) && Legal(Init(w), steps) && AllCareful(Init(w), steps)
    ensures AtMostOneLive(After(Init(w), steps)) && TokenSafe(After(Init(w), steps).log)
  {
    InitBase(w);
    InitTokenInv(w);
    CarefulRunKeeps(Init(w), steps);
  }
}
