/**
 No stage starts after an earlier stage revoked the Hub token, whatever is lost, edited or removed.

 The sequencer and the harness keep this between them; only an edit of the workflow or the removal
 of an AgentRun or its Sandbox can undo it, and only by leaving the run `Primed`.
 */
module WorkflowToken {
  import opened Common
  import AR = AgentRun
  import Decimals
  import SE = StageExit
  import opened Workflow
  import opened WorkflowOneLive

  /** No stage process starts after the process of an earlier stage revoked the token. */
  ghost predicate TokenSafe(log: seq<LogEntry>) {
    forall p, q :: 0 <= p < q < |log| && Revokes(log[p]) && log[q].PodStarted? ==> log[q].index <= log[p].index
  }

  predicate Revokes(e: LogEntry) {
    e.PodFinished? && e.revoked
  }

  ghost predicate RevokedBelow(log: seq<LogEntry>, i: nat) {
    exists p :: 0 <= p < |log| && Revokes(log[p]) && log[p].index < i
  }

  // ---------------------------------------------------------------- processes that may still run

  /** The process in n's Sandbox has not ended. */
  predicate Unfinished(c: Cluster, n: string) {
    n in c.sandboxes && !c.sandboxes[n].pod.Exited?
  }

  /** AgentRun n may yet have a Sandbox of its own made: it is not over, names none, and has none. */
  predicate MayMake(c: Cluster, n: string) {
    && n in c.store.agentRuns && !AR.Terminal(c.store.agentRuns[n].status.phase)
    && !c.store.agentRuns[n].status.sandbox && (n in c.sandboxes ==> c.sandboxes[n].orphan)
  }

  /** A process of stage index i is running, or may yet. */
  predicate MayRun(c: Cluster, n: string, i: nat) {
    || (Unfinished(c, n) && c.sandboxes[n].index == i)
    || (MayMake(c, n) && c.store.agentRuns[n].index == i)
  }

  predicate MayStart(c: Cluster, n: string, i: nat) {
    || (n in c.sandboxes && c.sandboxes[n].pod.NotStarted? && c.sandboxes[n].index == i)
    || (MayMake(c, n) && c.store.agentRuns[n].index == i)
  }

  /** A process of an earlier stage has revoked the token, or may yet. */
  ghost predicate Preceded(c: Cluster, i: nat) {
    RevokedBelow(c.log, i) || exists n, j: nat :: MayRun(c, n, j) && j < i
  }

  /** Some process may still start although the token is gone by then. */
  ghost predicate Overdue(c: Cluster) {
    exists n, i: nat :: MayStart(c, n, i) && Preceded(c, i)
  }

  // ---------------------------------------------------------------- stages yet to come

  /** A stage that is yet to get its AgentRun. */
  ghost predicate Fresh(c: Cluster, m: nat) {
    Current(c) <= m < |Plan(c)| && Plan(c)[m] !in c.store.agentRuns && !Recorded(c, m)
  }

  /** AgentRun n can no longer succeed. */
  predicate Dead(c: Cluster, n: string)
    requires n in c.store.agentRuns
  {
    || c.store.agentRuns[n].status.phase == AR.Failed
    || (!AR.Terminal(c.store.agentRuns[n].status.phase) && Lost(c, n))
  }

  /** The only process AgentRun n can have has failed, or is gone. */
  predicate Lost(c: Cluster, n: string)
    requires n in c.store.agentRuns
  {
    if n in c.sandboxes then
      && c.sandboxes[n].pod.Exited? && c.sandboxes[n].pod.code != 0
      && (!c.sandboxes[n].orphan || c.store.agentRuns[n].status.sandbox)
    else c.store.agentRuns[n].status.sandbox
  }

  /** The sequencer can still get from the current stage to stage m. */
  ghost predicate Open(c: Cluster, m: nat)
    requires m <= |Plan(c)|
  {
    && !AR.Terminal(c.store.run.phase)
    && forall l :: Current(c) <= l < m ==>
         if Plan(c)[l] in c.store.agentRuns then !Dead(c, Plan(c)[l]) else !Recorded(c, l)
  }

  ghost predicate OnPath(c: Cluster, n: string, m: nat)
    requires m <= |Plan(c)|
  {
    exists l :: Current(c) <= l < m && Plan(c)[l] == n
  }

  /** AgentRun n stands or falls with the process in n's Sandbox. */
  predicate Bound(c: Cluster, n: string) {
    && n in c.store.agentRuns && n in c.sandboxes
    && (c.sandboxes[n].orphan ==> c.store.agentRuns[n].status.sandbox)
  }

  /** The process of an intermediate stage revokes the token only by failing. */
  predicate Last(index: nat, count: nat) {
    index + 1 == count
  }

  /** A process that may revoke the token before stage m starts, and leave the way to m open. */
  ghost predicate Threatens(c: Cluster, n: string, m: nat)
    requires m <= |Plan(c)|
  {
    || (Unfinished(c, n) && c.sandboxes[n].index < m
          && (!OnPath(c, n, m) || !Bound(c, n) || Last(c.sandboxes[n].index, c.sandboxes[n].count)))
    || (MayMake(c, n) && c.store.agentRuns[n].index < m
          && (!OnPath(c, n, m) || Last(c.store.agentRuns[n].index, c.store.agentRuns[n].count)))
  }

  ghost predicate Threatened(c: Cluster, m: nat)
    requires m <= |Plan(c)|
  {
    RevokedBelow(c.log, m) || exists n :: Threatens(c, n, m)
  }

  /** A process may still start, or a stage be reached, although the token is gone by then. */
  ghost predicate Primed(c: Cluster) {
    Overdue(c) || exists m: nat :: Fresh(c, m) && Open(c, m) && Threatened(c, m)
  }

  // ---------------------------------------------------------------- what every step keeps

  /** Stages are distinctly named, and no process is ahead of the current stage. */
  ghost predicate Placed(c: Cluster) {
    && (Plan(c) == [] || ValidWorkflow(Some(Plan(c))))
    && (forall n :: n in c.store.agentRuns ==> PlacedAt(c, c.store.agentRuns[n].index, c.store.agentRuns[n].count))
    && (forall n :: n in c.sandboxes ==> PlacedAt(c, c.sandboxes[n].index, c.sandboxes[n].count))
    && (forall n :: n in c.sandboxes && n in c.store.agentRuns ==> c.sandboxes[n].index <= c.store.agentRuns[n].index)
  }

  ghost predicate PlacedAt(c: Cluster, index: nat, count: nat) {
    index <= Current(c) && index < count < Decimals.TWO_64
  }

  ghost predicate TokenInv(c: Cluster) {
    Base(c) && Placed(c) && TokenSafe(c.log) && !Primed(c)
  }

  lemma StepKeepsPlaced(c: Cluster, s: Step)
    requires Base(c) && Placed(c) && Enabled(c, s)
    ensures Placed(Next(c, s))
  {
    match s {
      case Reconcile(e, lands) => ReconcileKeepsPlaced(c, e, lands);
      case ReconcileAgentRun(n, v, patched) => if !Expires(c, s) { StatusKeepsPlaced(c, n, v, patched); }
      case _ =>
    }
  }

  lemma ReconcileKeepsPlaced(c: Cluster, e: Reading, lands: bool)
    requires Base(c) && Placed(c)
    ensures Placed(Next(c, Reconcile(e, lands)))
  {
    ReconcileEffect(c, e, lands);
    ReconcileAdvances(c, e, lands);
  }

  lemma StatusKeepsPlaced(c: Cluster, n: string, v: AR.View, patched: bool)
    requires Placed(c) && n in c.store.agentRuns
    ensures Placed(StatusStep(c, n, v, patched))
  {
    assert PlacedAt(c, c.store.agentRuns[n].index, c.store.agentRuns[n].count);
  }

  /** Every step keeps the log safe; only an edit or a removal may prime the run. */
  lemma StepKeepsToken(c: Cluster, s: Step)
    requires TokenInv(c) && Enabled(c, s)
    ensures Base(Next(c, s)) && Placed(Next(c, s)) && TokenSafe(Next(c, s).log)
    ensures Ordinary(c, s) ==> !Primed(Next(c, s))
  {
    StepKeepsBase(c, s);
    StepKeepsPlaced(c, s);
    if s.StartPod? {
      assert MayStart(c, s.name, c.sandboxes[s.name].index);
      SafeSnoc(c.log, Next(c, s).log[|c.log|]);
    }
    if s.FinishPod? { SafeSnoc(c.log, Next(c, s).log[|c.log|]); }
    if Ordinary(c, s) && Primed(Next(c, s)) { StepWasPrimed(c, s); }
  }

  /** What is primed after an ordinary step was primed before it. */
  lemma StepWasPrimed(c: Cluster, s: Step)
    requires Base(c) && Placed(c) && Enabled(c, s) && Ordinary(c, s) && Primed(Next(c, s))
    ensures Primed(c)
  {
    var d := Next(c, s);
    if s.Reconcile? {
      ReconcileWasPrimed(c, s.reading, s.lands);
    } else if s.FinishPod? {
      FinishWasPrimed(c, s.name, s.inputs);
    } else {
      if s.ReconcileAgentRun? {
        StatusSettles(c, s.name, s.view, s.patched);
        SettlingSubsides(c, d, s.name);
      } else {
        SandboxSubsides(c, s);
      }
      SubsidingWasPrimed(c, d);
    }
  }

  lemma SafeSnoc(log: seq<LogEntry>, e: LogEntry)
    requires TokenSafe(log) && (e.PodStarted? ==> !RevokedBelow(log, e.index))
    ensures TokenSafe(log + [e])
  {
  }

  // ---------------------------------------------------------------- processes move on

  /** The sequencer stands where it stood, with the same AgentRuns. */
  ghost predicate SameStage(c: Cluster, d: Cluster) {
    && d.workflow == c.workflow && d.store.run == c.store.run && d.store.agentRuns.Keys == c.store.agentRuns.Keys
  }

  /** No process was revived, no AgentRun either, and no new threat or revocation came up. */
  ghost predicate Subsides(c: Cluster, d: Cluster) {
    && SameStage(c, d)
    && Calmer(c, d)
    && (forall n :: n in c.store.agentRuns && Dead(c, n) ==> Dead(d, n))
    && (forall n, m: nat :: m <= |Plan(c)| && Threatens(d, n, m) ==> Threatens(c, n, m))
    && (forall i: nat :: RevokedBelow(d.log, i) ==> RevokedBelow(c.log, i))
  }

  ghost predicate Calmer(c: Cluster, d: Cluster) {
    && (forall n, i: nat :: MayRun(d, n, i) ==> MayRun(c, n, i))
    && (forall n, i: nat :: MayStart(d, n, i) ==> MayStart(c, n, i))
    && (forall i: nat :: RevokedBelow(d.log, i) ==> Preceded(c, i))
  }

  lemma CalmerWasOverdue(c: Cluster, d: Cluster)
    requires Calmer(c, d) && Overdue(d)
    ensures Overdue(c)
  {
    var n, i: nat :| MayStart(d, n, i) && Preceded(d, i);
    if j, m: nat :| MayRun(d, j, m) && m < i { assert MayRun(c, j, m); }
    assert MayStart(c, n, i) && Preceded(c, i);
  }

  lemma SubsidingWasPrimed(c: Cluster, d: Cluster)
    requires Subsides(c, d) && Primed(d)
    ensures Primed(c)
  {
    if Overdue(d) {
      CalmerWasOverdue(c, d);
    } else {
      var m: nat :| Fresh(d, m) && Open(d, m) && Threatened(d, m);
      assert Fresh(c, m) && Open(c, m) && Threatened(c, m);
    }
  }

  /** A reconcile of an AgentRun, as its processes see it: it may give way to a process in its own new Sandbox. */
  ghost predicate Settles(c: Cluster, d: Cluster, n: string) {
    && n in c.store.agentRuns && n in d.store.agentRuns
    && d.store == c.store.(agentRuns := c.store.agentRuns[n := d.store.agentRuns[n]])
    && d.workflow == c.workflow && d.log == c.log
    && d.store.agentRuns[n].index == c.store.agentRuns[n].index
    && d.store.agentRuns[n].count == c.store.agentRuns[n].count
    && (c.store.agentRuns[n].status.sandbox ==> d.store.agentRuns[n].status.sandbox)
    && (MayMake(d, n) ==> MayMake(c, n))
    && (Dead(c, n) ==> Dead(d, n))
    && (d.sandboxes == c.sandboxes || Houses(c, d, n))
  }

  ghost predicate Houses(c: Cluster, d: Cluster, n: string)
    requires n in c.store.agentRuns
  {
    var r := c.store.agentRuns[n];
    n !in c.sandboxes && MayMake(c, n) && d.sandboxes == c.sandboxes[n := Sandbox(r.index, r.count, NotStarted, false)]
  }

  lemma StatusSettles(c: Cluster, n: string, v: AR.View, patched: bool)
    requires Base(c) && n in c.store.agentRuns && Truthful(v, PodOf(c, n))
    ensures Settles(c, StatusStep(c, n, v, patched), n)
  {
    var r := c.store.agentRuns[n];
    assert ChildSound(c, n, r);
    AR.ReconcileKeepsInv(r.status, v, patched);
    if r.status.phase != AR.Succeeded && AR.Persisted(r.status, v, patched).phase == AR.Succeeded {
      SuccessNeedsExit0(r.status, v, patched, PodOf(c, n));
    }
  }

  lemma SettlingSubsides(c: Cluster, d: Cluster, n: string)
    requires Settles(c, d, n)
    ensures Subsides(c, d)
  {
    SamePath(c, d);
  }

  lemma SamePath(c: Cluster, d: Cluster)
    requires Plan(d) == Plan(c) && Current(d) == Current(c)
    ensures forall n, m: nat :: m <= |Plan(c)| ==> OnPath(c, n, m) == OnPath(d, n, m)
  {
    forall n, m: nat | m <= |Plan(c)| ensures OnPath(c, n, m) == OnPath(d, n, m) {
      if l :| Current(c) <= l < m && Plan(c)[l] == n { assert Plan(d)[l] == n; }
      if l :| Current(d) <= l < m && Plan(d)[l] == n { assert Plan(c)[l] == n; }
    }
  }

  /** A start revokes nothing, and an orphan's deletion revives nothing. */
  lemma SandboxSubsides(c: Cluster, s: Step)
    requires Enabled(c, s) && Ordinary(c, s) && (s.StartPod? || s.DeleteSandbox?)
    ensures Subsides(c, Next(c, s))
  {
    SamePath(c, Next(c, s));
    if s.StartPod? { RevokedSnoc(c.log, Next(c, s).log[|c.log|]); }
  }

  /** A process that revokes the token either was a threat already, or closes the way by failing. */
  lemma FinishWasPrimed(c: Cluster, n: string, i: SE.Inputs)
    requires Base(c) && Placed(c) && Enabled(c, FinishPod(n, i)) && Primed(Next(c, FinishPod(n, i)))
    ensures Primed(c)
  {
    var d := Next(c, FinishPod(n, i));
    SamePath(c, d);
    assert MayRun(c, n, c.sandboxes[n].index);
    RevokedSnoc(c.log, d.log[|c.log|]);
    if Overdue(d) {
      CalmerWasOverdue(c, d);
    } else {
      var m: nat :| Fresh(d, m) && Open(d, m) && Threatened(d, m);
      EndWasOpen(c, n, i, m);
      if x :| Threatens(d, x, m) { assert Threatens(c, x, m); }
      if SE.StageRevokes(i) && c.sandboxes[n].index < m { FinishThreatened(c, n, i, m); }
      assert Threatened(c, m);
    }
  }

  lemma EndWasOpen(c: Cluster, n: string, i: SE.Inputs, m: nat)
    requires Enabled(c, FinishPod(n, i)) && Fresh(Next(c, FinishPod(n, i)), m) && Open(Next(c, FinishPod(n, i)), m)
    ensures Fresh(c, m) && Open(c, m)
  {
    var d := Next(c, FinishPod(n, i));
    assert forall x :: x in c.store.agentRuns && Dead(c, x) ==> Dead(d, x);
  }

  lemma RevokedSnoc(log: seq<LogEntry>, e: LogEntry)
    ensures forall k: nat :: RevokedBelow(log + [e], k) ==> RevokedBelow(log, k) || (Revokes(e) && e.index < k)
  {
    var longer := log + [e];
    forall k: nat | RevokedBelow(longer, k) ensures RevokedBelow(log, k) || (Revokes(e) && e.index < k) {
      var p :| 0 <= p < |longer| && Revokes(longer[p]) && longer[p].index < k;
      assert p < |log| ==> longer[p] == log[p];
    }
  }

  lemma FinishThreatened(c: Cluster, n: string, i: SE.Inputs, m: nat)
    requires Base(c) && Placed(c) && Enabled(c, FinishPod(n, i)) && m <= |Plan(c)|
    requires SE.StageRevokes(i) && c.sandboxes[n].index < m && Open(Next(c, FinishPod(n, i)), m)
    ensures Threatens(c, n, m)
  {
    if OnPath(c, n, m) && Bound(c, n) && !Last(c.sandboxes[n].index, c.sandboxes[n].count) {
      FailureCloses(c, n, i, m);
    }
  }

  /** An intermediate stage revokes the token only by failing, and its AgentRun fails with it. */
  lemma FailureCloses(c: Cluster, n: string, i: SE.Inputs, m: nat)
    requires Base(c) && Placed(c) && Enabled(c, FinishPod(n, i)) && m <= |Plan(c)| && SE.StageRevokes(i)
    requires OnPath(c, n, m) && Bound(c, n) && !Last(c.sandboxes[n].index, c.sandboxes[n].count)
    ensures !Open(Next(c, FinishPod(n, i)), m)
  {
    var d, sb := Next(c, FinishPod(n, i)), c.sandboxes[n];
    SE.StampedPosition(sb.index, sb.count);
    assert SE.StageCode(i) != 0;
    assert ChildSound(c, n, c.store.agentRuns[n]);
    var l :| Current(c) <= l < m && Plan(c)[l] == n;
    assert Plan(d)[l] == n && Dead(d, n);
  }

  // ---------------------------------------------------------------- the sequencer moves on

  lemma ReconcileWasPrimed(c: Cluster, e: Reading, lands: bool)
    requires Base(c) && Placed(c) && Primed(Next(c, Reconcile(e, lands)))
    ensures Primed(c)
  {
    var d := Next(c, Reconcile(e, lands));
    ReconcileEffect(c, e, lands);
    ReconcileAdvances(c, e, lands);
    if d.store.agentRuns != c.store.agentRuns {
      CreationWasPrimed(c, d);
    } else {
      MovingWasPrimed(c, d);
    }
  }

  lemma MovingWasPrimed(c: Cluster, d: Cluster)
    requires Base(c) && Primed(d) && d == c.(store := c.store.(run := d.store.run)) && Plan(d) == Plan(c)
    requires Current(d) == Current(c) || (Current(d) == Current(c) + 1 && CurrentSucceeded(c))
    requires Advances(c.store.run, d.store.run)
    ensures Primed(c)
  {
    if Overdue(d) {
      CalmerWasOverdue(c, d);
    } else {
      var m: nat :| Fresh(d, m) && Open(d, m) && Threatened(d, m);
      MovingWasOpen(c, d, m);
      if n :| Threatens(d, n, m) {
        PathShrinks(c, d, n, m);
        assert Threatens(c, n, m);
      }
      assert Threatened(c, m);
    }
  }

  lemma MovingWasOpen(c: Cluster, d: Cluster, m: nat)
    requires d == c.(store := c.store.(run := d.store.run)) && Plan(d) == Plan(c)
    requires Current(d) == Current(c) || (Current(d) == Current(c) + 1 && CurrentSucceeded(c))
    requires Advances(c.store.run, d.store.run) && Fresh(d, m) && Open(d, m)
    ensures Fresh(c, m) && Open(c, m)
  {
    assert forall n :: n in c.store.agentRuns ==> Dead(d, n) == Dead(c, n);
  }

  /** A stage that has been passed has no process left. */
  lemma PathShrinks(c: Cluster, d: Cluster, n: string, m: nat)
    requires Base(c) && Plan(d) == Plan(c) && m <= |Plan(c)|
    requires Current(d) == Current(c) || (Current(d) == Current(c) + 1 && CurrentSucceeded(c))
    ensures OnPath(c, n, m) ==> OnPath(d, n, m) || (!Unfinished(c, n) && !MayMake(c, n))
  {
    if l :| Current(c) <= l < m && Plan(c)[l] == n && !OnPath(d, n, m) {
      assert l == Current(c);
      assert ChildSound(c, n, c.store.agentRuns[n]);
    }
  }

  /** A new AgentRun's stage was fresh; whatever threatens it, or a later stage, did so before. */
  lemma CreationWasPrimed(c: Cluster, d: Cluster)
    requires Base(c) && Placed(c) && Primed(d) && d == c.(store := d.store) && CreatesCurrent(c, d.store)
    requires Plan(d) == Plan(c) && Current(d) == Current(c) && Advances(c.store.run, d.store.run)
    ensures Primed(c)
  {
    assert Fresh(c, Current(c)) && Open(c, Current(c));
    if Overdue(d) {
      CreationOverdue(c, d);
    } else {
      var m: nat :| Fresh(d, m) && Open(d, m) && Threatened(d, m);
      CreationWasOpen(c, d, m);
      if n :| Threatens(d, n, m) { CreationThreatens(c, d, n, m); }
      assert Threatened(c, m);
    }
  }

  lemma CreationWasOpen(c: Cluster, d: Cluster, m: nat)
    requires Base(c) && d == c.(store := d.store) && CreatesCurrent(c, d.store)
    requires Plan(d) == Plan(c) && Current(d) == Current(c) && Advances(c.store.run, d.store.run)
    requires Fresh(d, m) && Open(d, m)
    ensures m > Current(c) && Fresh(c, m) && Open(c, m)
  {
    var k := Plan(c)[Current(c)];
    assert forall n :: n in c.store.agentRuns ==> Dead(d, n) == Dead(c, n);
    forall l | Current(c) <= l < m
      ensures if Plan(c)[l] in c.store.agentRuns then !Dead(c, Plan(c)[l]) else !Recorded(c, l)
    {
      assert Plan(d)[l] in d.store.agentRuns <==> Plan(c)[l] in c.store.agentRuns || Plan(c)[l] == k;
    }
  }

  lemma CreationOverdue(c: Cluster, d: Cluster)
    requires Base(c) && Placed(c) && d == c.(store := d.store) && CreatesCurrent(c, d.store) && Overdue(d)
    ensures Overdue(c) || Threatened(c, Current(c))
  {
    var n, i: nat :| MayStart(d, n, i) && Preceded(d, i);
    assert i <= Current(c);
    if m, j: nat :| MayRun(d, m, j) && j < i {
      LowerWasThere(c, d, m, j);
    } else {
      assert RevokedBelow(c.log, i) && Preceded(c, i);
      if i < Current(c) { assert MayStart(c, n, i); }
    }
  }

  /** The new AgentRun is at the current stage; whatever is lower threatened that stage already. */
  lemma LowerWasThere(c: Cluster, d: Cluster, m: string, j: nat)
    requires CreatesCurrent(c, d.store) && d == c.(store := d.store) && Current(c) < |Plan(c)|
    requires MayRun(d, m, j) && j < Current(c)
    ensures Threatens(c, m, Current(c))
  {
  }

  lemma CreationThreatens(c: Cluster, d: Cluster, n: string, m: nat)
    requires Base(c) && d == c.(store := d.store) && CreatesCurrent(c, d.store)
    requires Plan(d) == Plan(c) && Current(d) == Current(c) < m < |Plan(c)| && Threatens(d, n, m)
    ensures Threatens(c, n, m)
  {
    var k := Current(c);
    assert OnPath(c, Plan(c)[k], m) by { assert Plan(c)[k] == Plan(c)[k]; }
    assert OnPath(c, n, m) == OnPath(d, n, m);
  }

  // ---------------------------------------------------------------- whole runs

  /** No edit and no removal leaves the run primed. */
  ghost predicate NeverPrimed(c: Cluster, steps: seq<Step>)
    requires Legal(c, steps)
    decreases |steps|
  {
    steps != [] ==>
      && (Ordinary(c, steps[0]) || !Primed(Next(c, steps[0])))
      && NeverPrimed(Next(c, steps[0]), steps[1..])
  }

  lemma {:induction false} RunKeepsToken(c: Cluster, steps: seq<Step>)
    requires TokenInv(c) && Legal(c, steps) && NeverPrimed(c, steps)
    ensures TokenInv(After(c, steps))
    decreases |steps|
  {
    if steps != [] {
      StepKeepsToken(c, steps[0]);
      RunKeepsToken(Next(c, steps[0]), steps[1..]);
    }
  }

  lemma InitTokenInv(w: Option<seq<string>>)
    requires ValidWorkflow(w)
    ensures TokenInv(Init(w))
  {
    InitBase(w);
  }

  /**
   In every run of the full environment no stage starts after an earlier one revoked the token, as
   long as no edit or removal primes it.
   */
  lemma TokenSafeUnlessPrimed(w: Option<seq<string>>, steps: seq<Step>)
    requires ValidWorkflow(w) && Legal(Init(w), steps) && NeverPrimed(Init(w), steps)
    ensures TokenSafe(After(Init(w), steps).log)
  {
    InitTokenInv(w);
    RunKeepsToken(Init(w), steps);
  }
}
