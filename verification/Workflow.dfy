/**
 The AgentWorkflowRun sequencer (internal/controller/agentworkflowrun_controller.go), run
 against the AgentRun controller, the pods and the harness exit contract.

 A `Cluster` is what the API server holds, plus a log of stage processes starting and
 finishing.  The environment may edit or delete the workflow, delete AgentRuns and Sandboxes, let
 their TTL pass, lose status patches and the answers to creations, and advance pods.
 */
module Workflow {
  import opened Common
  import AR = AgentRun
  import Decimals
  import SE = StageExit

  datatype StageStatus = StageStatus(name: string, phase: AR.Phase, agentRun: Option<string>)

  datatype RunStatus = RunStatus(
    phase: AR.Phase,
    started: bool,
    stages: seq<StageStatus>,    // the snapshot of the workflow's stages
    current: string,
    completed: bool)

  const FRESH_RUN := RunStatus(AR.NoPhase, false, [], "", false)

  datatype PodState = NotStarted | Started | Exited(code: int)

  /** A stage's AgentRun: the position it is created for, and its status. */
  datatype StageRun = StageRun(index: nat, count: nat, status: AR.Status)

  /**
   The Sandbox made for an AgentRun, and its pod.  The position in its environment is that of
   the AgentRun it was made for; once that one is removed, the Sandbox is an orphan.
   */
  datatype Sandbox = Sandbox(index: nat, count: nat, pod: PodState, orphan: bool)

  // ---------------------------------------------------------------- one reconcile

  /** `Unacknowledged`: the AgentRun was created, but the answer got lost and reads as an error. */
  datatype Creation = Created | ConfigError | Transient | Unacknowledged

  /** What a reconcile meets: workflow readiness, the result of a create, a failing read. */
  datatype Reading = Reading(ready: bool, creation: Creation, readFails: bool)

  /** AgentRuns are keyed by stage: distinct stages have distinct AgentRun names. */
  datatype Store = Store(run: RunStatus, agentRuns: map<string, StageRun>)

  function Snapshot(names: seq<string>): (ss: seq<StageStatus>)
    ensures |ss| == |names|
    ensures forall i :: 0 <= i < |ss| ==> ss[i] == StageStatus(names[i], AR.Pending, None)
  {
    seq(|names|, i requires 0 <= i < |names| => StageStatus(names[i], AR.Pending, None))
  }

  /** Everything before `k` has succeeded and `k`, if it is a stage, has not. */
  ghost predicate IsCurrent(stages: seq<StageStatus>, k: nat) {
    && k <= |stages|
    && (forall i :: 0 <= i < k ==> stages[i].phase == AR.Succeeded)
    && (k < |stages| ==> stages[k].phase != AR.Succeeded)
  }

  lemma {:induction false} CurrentExists(stages: seq<StageStatus>)
    ensures exists k: nat :: IsCurrent(stages, k)
  {
    if stages == [] || stages[0].phase != AR.Succeeded {
      assert IsCurrent(stages, 0);
    } else {
      CurrentExists(stages[1..]);
      var k: nat :| IsCurrent(stages[1..], k);
      assert forall i :: 0 < i < |stages| ==> stages[i] == stages[1..][i - 1];
      assert IsCurrent(stages, k + 1);
    }
  }

  /** The first stage that has not succeeded; the number of stages when all have. */
  ghost function CurrentIndex(stages: seq<StageStatus>): (k: nat)
    ensures IsCurrent(stages, k)
  {
    CurrentExists(stages);
    var k: nat :| IsCurrent(stages, k);
    k
  }

  function Initialized(run: RunStatus, names: seq<string>): RunStatus {
    var run := if run.started then run else run.(started := true, phase := AR.Pending);
    if run.stages == [] then run.(stages := Snapshot(names)) else run
  }

  function WithStage(run: RunStatus, k: nat, s: StageStatus): RunStatus
    requires k < |run.stages|
  {
    run.(stages := run.stages[k := s])
  }

  function Stop(run: RunStatus): RunStatus {
    run.(phase := AR.Failed, completed := true)
  }

  ghost function Reconciled(st: Store, workflow: Option<seq<string>>, e: Reading): Store {
    if AR.Terminal(st.run.phase) then st
    else if workflow.None? then st.(run := Stop(st.run))
    else if !e.ready then st
    else
      var run := Initialized(st.run, workflow.value);
      var k := CurrentIndex(run.stages);
      if k == |run.stages| then
        st.(run := run.(phase := AR.Succeeded, current := "", completed := true))
      else
        var s := run.stages[k];
        var run := run.(current := s.name, phase := AR.Running);
        if s.agentRun.None? then StageCreation(st, run, k, e.creation)
        else if e.readFails then st
        else st.(run := StageMirror(st, run, k))
  }

  function StageCreation(st: Store, run: RunStatus, k: nat, creation: Creation): Store
    requires k < |run.stages|
  {
    var s := run.stages[k];
    match creation
    case ConfigError => st.(run := Stop(WithStage(run, k, s.(phase := AR.Failed))))
    case Transient => st.(run := run)
    case Unacknowledged => Store(run, WithAgentRun(st.agentRuns, s.name, k, |run.stages|))
    case Created =>
      Store(WithStage(run, k, s.(agentRun := Some(s.name), phase := AR.Pending)),
            WithAgentRun(st.agentRuns, s.name, k, |run.stages|))
  }

  /** An AgentRun that is already there was created before, and its patch lost: it is adopted. */
  function WithAgentRun(agentRuns: map<string, StageRun>, name: string, k: nat, count: nat): map<string, StageRun> {
    if name in agentRuns then agentRuns else agentRuns[name := StageRun(k, count, AR.FRESH)]
  }

  function StageMirror(st: Store, run: RunStatus, k: nat): RunStatus
    requires k < |run.stages| && run.stages[k].agentRun.Some?
  {
    var s := run.stages[k];
    if s.agentRun.value !in st.agentRuns then
      Stop(WithStage(run, k, s.(phase := AR.Failed)))    // deleted externally
    else
      var child := st.agentRuns[s.agentRun.value].status;
      var run := WithStage(run, k, s.(phase := child.phase));
      if child.succeeded.Some? && child.succeeded.value.status == AR.False then Stop(run) else run
  }

  /** The store after a reconcile: AgentRun creation always takes effect, the patch only if it lands. */
  ghost function Persisted(st: Store, workflow: Option<seq<string>>, e: Reading, lands: bool): Store {
    var next := Reconciled(st, workflow, e);
    if lands then next else next.(run := st.run)
  }

  class WorkflowRunObject {
    var run: RunStatus
    var agentRuns: map<string, StageRun>

    constructor ()
      ensures run == FRESH_RUN && agentRuns == map[]
    {
      run, agentRuns := FRESH_RUN, map[];
    }

    ghost function View(): Store
      reads this
    {
      Store(run, agentRuns)
    }

    method Reconcile(workflow: Option<seq<string>>, e: Reading, lands: bool)
      modifies this
      ensures View() == Persisted(old(View()), workflow, e, lands)
    {
      var status := run;
      if AR.Terminal(status.phase) { return; }
      if workflow.None? {
        status := status.(phase := AR.Failed);
        status := status.(completed := true);
        Patch(status, lands);
        return;
      }
      if !e.ready { return; }
      if !status.started {
        status := status.(started := true, phase := AR.Pending);
      }
      if |status.stages| == 0 {
        var stages := TakeSnapshot(workflow.value);
        status := status.(stages := stages);
      }
      var k := FindCurrentStageIndex(status.stages);
      if k >= |status.stages| {
        status := status.(phase := AR.Succeeded, current := "", completed := true);
        Patch(status, lands);
        return;
      }
      var stage := status.stages[k];
      status := status.(current := stage.name, phase := AR.Running);
      if stage.agentRun.None? {
        CreateAgentRunForStage(status, k, e.creation, lands);
      } else if !e.readFails {
        MirrorStage(status, k, lands);
      }
    }

    method CreateAgentRunForStage(planned: RunStatus, k: nat, creation: Creation, lands: bool)
      requires k < |planned.stages|
      modifies this
      ensures agentRuns == StageCreation(old(View()), planned, k, creation).agentRuns
      ensures run == if lands then StageCreation(old(View()), planned, k, creation).run else old(run)
    {
      var status, stage := planned, planned.stages[k];
      match creation {
        case ConfigError =>
          status := WithStage(status, k, stage.(phase := AR.Failed));
          status := status.(phase := AR.Failed, completed := true);
        case Transient =>
        case Unacknowledged => Create(stage.name, k, |status.stages|);
        case Created =>
          Create(stage.name, k, |status.stages|);
          status := WithStage(status, k, stage.(agentRun := Some(stage.name), phase := AR.Pending));
      }
      Patch(status, lands);
    }

    method Create(name: string, k: nat, count: nat)
      modifies this`agentRuns
      ensures agentRuns == WithAgentRun(old(agentRuns), name, k, count)
    {
      if name !in agentRuns {
        agentRuns := agentRuns[name := StageRun(k, count, AR.FRESH)];
      }
    }

    method MirrorStage(planned: RunStatus, k: nat, lands: bool)
      requires k < |planned.stages| && planned.stages[k].agentRun.Some?
      modifies this`run
      ensures run == if lands then StageMirror(old(View()), planned, k) else old(run)
    {
      var status, stage := planned, planned.stages[k];
      if stage.agentRun.value !in agentRuns {
        status := WithStage(status, k, stage.(phase := AR.Failed));
        status := status.(phase := AR.Failed, completed := true);
        Patch(status, lands);
        return;
      }
      var child := agentRuns[stage.agentRun.value].status;
      status := WithStage(status, k, stage.(phase := child.phase));
      if child.succeeded.Some? && child.succeeded.value.status == AR.False {
        status := status.(phase := AR.Failed, completed := true);
      }
      Patch(status, lands);
    }

    method Patch(status: RunStatus, lands: bool)
      modifies this`run
      ensures run == if lands then status else old(run)
    {
      if lands { run := status; }
    }
  }

  method TakeSnapshot(names: seq<string>) returns (stages: seq<StageStatus>)
    ensures stages == Snapshot(names)
  {
    stages := [];
    for i := 0 to |names|
      invariant |stages| == i
      invariant forall j :: 0 <= j < i ==> stages[j] == StageStatus(names[j], AR.Pending, None)
    {
      stages := stages + [StageStatus(names[i], AR.Pending, None)];
    }
  }

  method FindCurrentStageIndex(stages: seq<StageStatus>) returns (k: nat)
    ensures k == CurrentIndex(stages)
  {
    for i := 0 to |stages|
      invariant forall j :: 0 <= j < i ==> stages[j].phase == AR.Succeeded
    {
      if stages[i].phase != AR.Succeeded { return i; }
    }
    return |stages|;
  }

  // ---------------------------------------------------------------- the whole cluster

  datatype LogEntry =
    | PodStarted(name: string, index: nat)
    | PodFinished(name: string, index: nat, code: int, revoked: bool)

  /** Sandboxes, like AgentRuns, are keyed by stage: a Sandbox has its AgentRun's name. */
  datatype Cluster = Cluster(
    workflow: Option<seq<string>>,
    store: Store,
    sandboxes: map<string, Sandbox>,
    log: seq<LogEntry>)

  datatype Step =
    | Reconcile(reading: Reading, lands: bool)
    | EditWorkflow(workflow: Option<seq<string>>)
    | DeleteAgentRun(name: string)
    | DeleteSandbox(name: string)
    | ReconcileAgentRun(name: string, view: AR.View, patched: bool)
    | StartPod(name: string)
    | FinishPod(name: string, inputs: SE.Inputs)

  /** A workflow has at least one stage, distinctly named. */
  ghost predicate ValidWorkflow(w: Option<seq<string>>) {
    w.Some? ==>
      && 1 <= |w.value| < Decimals.TWO_64
      && forall i, j :: 0 <= i < j < |w.value| ==> w.value[i] != w.value[j]
  }

  function PodOf(c: Cluster, n: string): PodState {
    if n in c.sandboxes then c.sandboxes[n].pod else NotStarted
  }

  /** The AgentRun controller sees exit codes and Sandbox success only as they happened. */
  ghost predicate Truthful(v: AR.View, pod: PodState) {
    && (v.pod.Found? && v.pod.value.agentExit.Some? ==> pod == Exited(v.pod.value.agentExit.value))
    && (v.sandbox.Found? && v.sandbox.value.finished == Some(AR.PodSucceeded) ==> pod == Exited(0))
  }

  /** What may happen next.  A Sandbox, whoever its AgentRun is by now, may start its pod as long as it is there. */
  ghost predicate Enabled(c: Cluster, s: Step) {
    match s
    case Reconcile(_, _) => true
    case EditWorkflow(w) => ValidWorkflow(w)
    case DeleteAgentRun(n) => n in c.store.agentRuns
    case DeleteSandbox(n) => n in c.sandboxes
    case ReconcileAgentRun(n, v, _) => n in c.store.agentRuns && Truthful(v, PodOf(c, n))
    case StartPod(n) => n in c.sandboxes && c.sandboxes[n].pod == NotStarted
    case FinishPod(n, i) =>
      && n in c.sandboxes && c.sandboxes[n].pod == Started && SE.WellFormed(i)
      && i.stage == Decimals.Format(c.sandboxes[n].index + 1)
      && i.stageCount == Decimals.Format(c.sandboxes[n].count)
  }

  /** The AgentRun controller deletes an AgentRun whose TTL has passed. */
  predicate Expires(c: Cluster, s: Step) {
    && s.ReconcileAgentRun? && s.patched && s.name in c.store.agentRuns
    && AR.Reconciled(c.store.agentRuns[s.name].status, s.view) == AR.Delete
  }

  /** An AgentRun is removed, by a user or by its TTL. */
  predicate Removes(c: Cluster, s: Step) {
    s.DeleteAgentRun? || Expires(c, s)
  }

  /** A Sandbox is deleted although its AgentRun is still there. */
  predicate TakesSandbox(c: Cluster, s: Step) {
    s.DeleteSandbox? && s.name in c.sandboxes && !c.sandboxes[s.name].orphan
  }

  ghost function Next(c: Cluster, s: Step): Cluster
    requires Enabled(c, s)
  {
    match s
    case Reconcile(e, lands) => c.(store := Persisted(c.store, c.workflow, e, lands))
    case EditWorkflow(w) => c.(workflow := w)
    case DeleteAgentRun(n) => Without(c, n)
    case DeleteSandbox(n) => c.(sandboxes := c.sandboxes - {n})
    case ReconcileAgentRun(n, v, patched) =>
      if Expires(c, s) then Without(c, n) else StatusStep(c, n, v, patched)
    case StartPod(n) =>
      var sb := c.sandboxes[n];
      WithSandbox(c, n, sb.(pod := Started)).(log := c.log + [PodStarted(n, sb.index)])
    case FinishPod(n, i) =>
      var sb := c.sandboxes[n];
      WithSandbox(c, n, sb.(pod := Exited(SE.StageCode(i))))
        .(log := c.log + [PodFinished(n, sb.index, SE.StageCode(i), SE.StageRevokes(i))])
  }

  /** A Sandbox that is created stays, whatever becomes of the patch; one that is already there is adopted. */
  ghost function StatusStep(c: Cluster, n: string, v: AR.View, patched: bool): Cluster
    requires n in c.store.agentRuns
  {
    var r := c.store.agentRuns[n];
    var d := if AR.Makes(r.status, v) && n !in c.sandboxes then
        WithSandbox(c, n, Sandbox(r.index, r.count, NotStarted, false))
      else c;
    WithRun(d, n, r.(status := AR.Persisted(r.status, v, patched)))
  }

  ghost function WithRun(c: Cluster, n: string, r: StageRun): Cluster {
    c.(store := c.store.(agentRuns := c.store.agentRuns[n := r]))
  }

  ghost function WithSandbox(c: Cluster, n: string, sb: Sandbox): Cluster {
    c.(sandboxes := c.sandboxes[n := sb])
  }

  /** The AgentRun is gone; the Sandbox it leaves behind goes on until it is deleted too. */
  ghost function Without(c: Cluster, n: string): Cluster {
    var d := c.(store := c.store.(agentRuns := c.store.agentRuns - {n}));
    if n in c.sandboxes then WithSandbox(d, n, c.sandboxes[n].(orphan := true)) else d
  }

  ghost function Init(w: Option<seq<string>>): Cluster {
    Cluster(w, Store(FRESH_RUN, map[]), map[], [])
  }

  ghost predicate Legal(c: Cluster, steps: seq<Step>)
    decreases |steps|
  {
    steps == [] || (Enabled(c, steps[0]) && Legal(Next(c, steps[0]), steps[1..]))
  }

  ghost function After(c: Cluster, steps: seq<Step>): Cluster
    requires Legal(c, steps)
    decreases |steps|
  {
    if steps == [] then c else After(Next(c, steps[0]), steps[1..])
  }

  // ---------------------------------------------------------------- the split

  ghost predicate FinishedWith0(log: seq<LogEntry>, name: string) {
    exists p :: 0 <= p < |log| && log[p].PodFinished? && log[p].name == name && log[p].code == 0
  }

  /**
   Some stage index splits the snapshot: everything before it succeeded, everything after it
   is untouched.  A succeeded stage's harness process really exited 0.
   */
  ghost predicate SplitStages(stages: seq<StageStatus>, log: seq<LogEntry>) {
    var k := CurrentIndex(stages);
    && (forall i :: k < i < |stages| ==> stages[i].phase == AR.Pending && stages[i].agentRun.None?)
    && (forall i :: 0 <= i < |stages| ==> StageSound(stages[i], log))
  }

  ghost predicate StageSound(s: StageStatus, log: seq<LogEntry>) {
    && (s.agentRun.Some? ==> s.agentRun.value == s.name)
    && (s.phase == AR.Succeeded ==> s.agentRun.Some? && FinishedWith0(log, s.name))
  }

  /** ... and a succeeded run has no stage left. */
  ghost predicate Split(c: Cluster) {
    var run := c.store.run;
    && SplitStages(run.stages, c.log)
    && (run.phase == AR.Succeeded ==> run.stages != [] && CurrentIndex(run.stages) == |run.stages|)
  }

  /** Each AgentRun keeps its own invariant, and a succeeded one exited 0 and says so in the log. */
  ghost predicate ChildrenSound(c: Cluster) {
    && (forall n :: n in c.store.agentRuns ==> ChildSound(c, n, c.store.agentRuns[n]))
    && (forall n :: n in c.sandboxes ==> SandboxSound(c, n, c.sandboxes[n]))
  }

  ghost predicate ChildSound(c: Cluster, n: string, r: StageRun) {
    && AR.Inv(r.status)
    && (r.status.phase == AR.Succeeded ==>
          FinishedWith0(c.log, n) && (n in c.sandboxes ==> c.sandboxes[n].pod == Exited(0)))
  }

  ghost predicate SandboxSound(c: Cluster, n: string, sb: Sandbox) {
    && (sb.pod == Exited(0) ==> FinishedWith0(c.log, n))
    && (!sb.orphan ==> n in c.store.agentRuns)
  }

  ghost predicate Base(c: Cluster) {
    ValidWorkflow(c.workflow) && Split(c) && ChildrenSound(c)
  }

  ghost function Names(stages: seq<StageStatus>): (ns: seq<string>)
    ensures |ns| == |stages| && forall i :: 0 <= i < |ns| ==> ns[i] == stages[i].name
  {
    seq(|stages|, i requires 0 <= i < |stages| => stages[i].name)
  }

  /** Succeeded is reached only with a truthful exit 0. */
  lemma SuccessNeedsExit0(st: AR.Status, v: AR.View, patched: bool, pod: PodState)
    requires Truthful(v, pod) && st.phase != AR.Succeeded
    requires AR.Persisted(st, v, patched).phase == AR.Succeeded
    ensures pod == Exited(0)
  {
  }

  lemma LogGrows(log: seq<LogEntry>, e: LogEntry, name: string)
    ensures FinishedWith0(log, name) ==> FinishedWith0(log + [e], name)
    ensures e.PodFinished? && e.name == name && e.code == 0 ==> FinishedWith0(log + [e], name)
  {
    var l := log + [e];
    if FinishedWith0(log, name) {
      var p :| 0 <= p < |log| && log[p].PodFinished? && log[p].name == name && log[p].code == 0;
      assert l[p] == log[p];
    }
    assert l[|log|] == e;
  }

  lemma CurrentUnique(a: seq<StageStatus>, k: nat)
    requires IsCurrent(a, k)
    ensures CurrentIndex(a) == k
  {
  }

  /** Changing only the current stage moves the split by at most one. */
  lemma UpdateKeepsSplit(a: seq<StageStatus>, k: nat, s: StageStatus, log: seq<LogEntry>)
    requires SplitStages(a, log) && k == CurrentIndex(a) < |a|
    requires StageSound(s, log)
    ensures CurrentIndex(a[k := s]) == if s.phase == AR.Succeeded then k + 1 else k
    ensures SplitStages(a[k := s], log)
  {
    var m := if s.phase == AR.Succeeded then k + 1 else k;
    assert IsCurrent(a[k := s], m);
    CurrentUnique(a[k := s], m);
  }

  lemma InitializedKeepsSplit(run: RunStatus, names: seq<string>, log: seq<LogEntry>)
    requires SplitStages(run.stages, log) && names != []
    ensures SplitStages(Initialized(run, names).stages, log)
    ensures run.stages == [] ==> CurrentIndex(Initialized(run, names).stages) == 0
  {
    if run.stages == [] {
      CurrentUnique(Snapshot(names), 0);
    }
  }

  lemma ReconcileKeepsSplit(c: Cluster, e: Reading, lands: bool)
    requires Base(c)
    ensures Split(c.(store := Persisted(c.store, c.workflow, e, lands)))
  {
    var st := c.store;
    if lands && !AR.Terminal(st.run.phase) && c.workflow.Some? && e.ready {
      var run := Initialized(st.run, c.workflow.value);
      InitializedKeepsSplit(st.run, c.workflow.value, c.log);
      var k := CurrentIndex(run.stages);
      if k < |run.stages| {
        StageWorkKeepsSplit(c, run.(current := run.stages[k].name, phase := AR.Running), k, e.creation);
      }
    }
  }

  lemma StageWorkKeepsSplit(c: Cluster, run: RunStatus, k: nat, creation: Creation)
    requires ChildrenSound(c) && SplitStages(run.stages, c.log)
    requires k == CurrentIndex(run.stages) < |run.stages| && run.phase == AR.Running
    ensures run.stages[k].agentRun.None? ==>
      Split(c.(store := StageCreation(c.store, run, k, creation)))
    ensures run.stages[k].agentRun.Some? ==>
      Split(c.(store := c.store.(run := StageMirror(c.store, run, k))))
  {
    var s := run.stages[k];
    if s.agentRun.None? {
      var s' := StageCreation(c.store, run, k, creation).run.stages[k];
      UpdateKeepsSplit(run.stages, k, s', c.log);
      assert run.stages[k := s] == run.stages;
    } else {
      var s' := StageMirror(c.store, run, k).stages[k];
      UpdateKeepsSplit(run.stages, k, s', c.log);
    }
  }

  lemma StepKeepsBase(c: Cluster, s: Step)
    requires Base(c) && Enabled(c, s)
    ensures Base(Next(c, s))
  {
    match s {
      case Reconcile(e, lands) =>
        ReconcileKeepsSplit(c, e, lands);
        ReconcileAddsFresh(c.store, c.workflow, e, lands);
      case ReconcileAgentRun(n, v, patched) => if !Expires(c, s) { StatusKeepsBase(c, n, v, patched); }
      case StartPod(n) =>
        PodKeepsBase(c, n, Started, PodStarted(n, c.sandboxes[n].index));
      case FinishPod(n, i) =>
        PodKeepsBase(c, n, Exited(SE.StageCode(i)),
                     PodFinished(n, c.sandboxes[n].index, SE.StageCode(i), SE.StageRevokes(i)));
      case EditWorkflow(_) =>
      case DeleteAgentRun(_) =>
      case DeleteSandbox(_) =>
    }
  }

  /** A reconcile leaves AgentRuns alone, except that it may add the current stage's, fresh. */
  lemma ReconcileAddsFresh(st: Store, w: Option<seq<string>>, e: Reading, lands: bool)
    ensures var next := Persisted(st, w, e, lands).agentRuns;
      || next == st.agentRuns
      || exists n, k, count :: n !in st.agentRuns && next == st.agentRuns[n := StageRun(k, count, AR.FRESH)]
  {
  }

  lemma PodKeepsBase(c: Cluster, n: string, pod: PodState, e: LogEntry)
    requires Base(c) && n in c.sandboxes && !c.sandboxes[n].pod.Exited?
    requires e.name == n && (pod.Exited? ==> e.PodFinished? && e.code == pod.code)
    ensures Base(WithSandbox(c, n, c.sandboxes[n].(pod := pod)).(log := c.log + [e]))
  {
    LogKeepsSplit(c, WithSandbox(c, n, c.sandboxes[n].(pod := pod)).(log := c.log + [e]));
  }

  lemma StatusKeepsBase(c: Cluster, n: string, v: AR.View, patched: bool)
    requires Base(c) && n in c.store.agentRuns && Truthful(v, PodOf(c, n))
    ensures Base(StatusStep(c, n, v, patched))
  {
    var d := StatusStep(c, n, v, patched);
    var r := c.store.agentRuns[n];
    assert ChildSound(c, n, r);
    AR.ReconcileKeepsInv(r.status, v, patched);
    if r.status.phase != AR.Succeeded && AR.Persisted(r.status, v, patched).phase == AR.Succeeded {
      SuccessNeedsExit0(r.status, v, patched, PodOf(c, n));
      assert SandboxSound(c, n, c.sandboxes[n]);
    }
    assert ChildSound(d, n, d.store.agentRuns[n]);
  }

  lemma LogKeepsSplit(c: Cluster, d: Cluster)
    requires Split(c) && d.store.run == c.store.run
    requires |d.log| == |c.log| + 1 && d.log == c.log + [d.log[|c.log|]]
    ensures Split(d)
    ensures forall n :: FinishedWith0(c.log, n) ==> FinishedWith0(d.log, n)
    ensures var e := d.log[|c.log|]; e.PodFinished? && e.code == 0 ==> FinishedWith0(d.log, e.name)
  {
    forall n ensures FinishedWith0(c.log, n) ==> FinishedWith0(d.log, n) {
      LogGrows(c.log, d.log[|c.log|], n);
    }
    LogGrows(c.log, d.log[|c.log|], d.log[|c.log|].name);
  }

  /** Once taken, the snapshot is frozen; a terminal run stays as it is; the split only moves forward. */
  ghost predicate Advances(a: RunStatus, b: RunStatus) {
    && (a.stages != [] ==> Names(b.stages) == Names(a.stages))
    && (forall i :: 0 <= i < |a.stages| && a.stages[i].agentRun.Some? ==>
          i < |b.stages| && b.stages[i].agentRun == a.stages[i].agentRun)
    && (AR.Terminal(a.phase) ==> b == a)
    && CurrentIndex(a.stages) <= CurrentIndex(b.stages)
  }

  /** Only stage k changed, and neither its name nor an AgentRun it had. */
  ghost predicate OnlyMoved(a: seq<StageStatus>, b: seq<StageStatus>, k: nat)
    requires k < |a|
  {
    && |b| == |a| && (forall i :: 0 <= i < |a| && i != k ==> b[i] == a[i])
    && b[k].name == a[k].name && (a[k].agentRun.Some? ==> b[k].agentRun == a[k].agentRun)
  }

  lemma StageWorkMoves(st: Store, run: RunStatus, k: nat, creation: Creation)
    requires k < |run.stages|
    ensures run.stages[k].agentRun.None? ==> OnlyMoved(run.stages, StageCreation(st, run, k, creation).run.stages, k)
    ensures run.stages[k].agentRun.Some? ==> OnlyMoved(run.stages, StageMirror(st, run, k).stages, k)
  {
  }

  lemma MovedAdvances(a: RunStatus, b: RunStatus)
    requires CurrentIndex(a.stages) < |a.stages| && OnlyMoved(a.stages, b.stages, CurrentIndex(a.stages))
    requires !AR.Terminal(a.phase)
    ensures Advances(a, b)
  {
    assert Names(b.stages) == Names(a.stages);
  }

  lemma ReconcileAdvances(c: Cluster, e: Reading, lands: bool)
    requires Base(c)
    ensures Advances(c.store.run, Persisted(c.store, c.workflow, e, lands).run)
  {
    var st := c.store;
    if lands && !AR.Terminal(st.run.phase) && c.workflow.Some? && e.ready {
      var run := Initialized(st.run, c.workflow.value);
      InitializedKeepsSplit(st.run, c.workflow.value, c.log);
      CurrentUnique([], 0);
      var k := CurrentIndex(run.stages);
      if k < |run.stages| {
        var run' := run.(current := run.stages[k].name, phase := AR.Running);
        StageWorkMoves(st, run', k, e.creation);
        var next := Reconciled(st, c.workflow, e).run;
        if next != st.run { MovedAdvances(run', next); }
      }
    }
  }

  lemma {:induction false} RunKeepsBase(c: Cluster, steps: seq<Step>)
    requires Base(c) && Legal(c, steps)
    ensures Base(After(c, steps))
    ensures Advances(c.store.run, After(c, steps).store.run)
    decreases |steps|
  {
    if steps != [] {
      var d := Next(c, steps[0]);
      StepKeepsBase(c, steps[0]);
      if steps[0].Reconcile? {
        ReconcileAdvances(c, steps[0].reading, steps[0].lands);
      }
      RunKeepsBase(d, steps[1..]);
    }
  }

  lemma InitBase(w: Option<seq<string>>)
    requires ValidWorkflow(w)
    ensures Base(Init(w))
  {
    CurrentUnique([], 0);
  }

  /**
   Every reachable run, whatever the environment does: the snapshot is split at the current
   index, and a Succeeded run means every stage of the snapshot exited 0.
   */
  lemma ReachableRunsAreSplit(w: Option<seq<string>>, steps: seq<Step>)
    requires ValidWorkflow(w) && Legal(Init(w), steps)
    ensures var c := After(Init(w), steps);
      var run := c.store.run;
      && Split(c)
      && (run.phase == AR.Succeeded ==>
            run.stages != [] && forall i :: 0 <= i < |run.stages| ==>
              run.stages[i].phase == AR.Succeeded && FinishedWith0(c.log, run.stages[i].name))
  {
    InitBase(w);
    RunKeepsBase(Init(w), steps);
  }

  // ---------------------------------------------------------------- what one reconcile does to the plan

  /** The stages this run works through: the snapshot once persisted, the workflow before that. */
  ghost function Plan(c: Cluster): seq<string> {
    if c.store.run.stages != [] then Names(c.store.run.stages)
    else if c.workflow.Some? then c.workflow.value else []
  }

  /** The persisted snapshot names this stage's AgentRun, so it will not be created again. */
  ghost predicate Recorded(c: Cluster, i: nat) {
    i < |c.store.run.stages| && c.store.run.stages[i].agentRun.Some?
  }

  /** The current stage's AgentRun, just created from the plan. */
  ghost predicate CreatesCurrent(c: Cluster, next: Store) {
    var k := CurrentIndex(c.store.run.stages);
    && !AR.Terminal(c.store.run.phase)
    && k < |Plan(c)|
    && Plan(c)[k] !in c.store.agentRuns
    && next.agentRuns == c.store.agentRuns[Plan(c)[k] := StageRun(k, |Plan(c)|, AR.FRESH)]
    && !Recorded(c, k)
  }

  /** The current stage's AgentRun was read as succeeded. */
  ghost predicate CurrentSucceeded(c: Cluster) {
    var k := CurrentIndex(c.store.run.stages);
    && k < |Plan(c)| && Plan(c)[k] in c.store.agentRuns
    && c.store.agentRuns[Plan(c)[k]].status.phase == AR.Succeeded
  }

  /** All that one reconcile can do, as the plan sees it. */
  lemma ReconcileEffect(c: Cluster, e: Reading, lands: bool)
    requires Base(c)
    ensures var next := Persisted(c.store, c.workflow, e, lands);
      && Plan(c.(store := next)) == Plan(c)
      && (lands || next.run == c.store.run) && (c.store.run.stages != [] ==> next.run.stages != [])
      && (next.agentRuns == c.store.agentRuns || CreatesCurrent(c, next))
      && (|| CurrentIndex(next.run.stages) == CurrentIndex(c.store.run.stages)
          || (CurrentIndex(next.run.stages) == CurrentIndex(c.store.run.stages) + 1 && CurrentSucceeded(c)
              && !AR.Terminal(c.store.run.phase)))
  {
    var st := c.store;
    if !AR.Terminal(st.run.phase) && c.workflow.Some? && e.ready {
      var run := Initialized(st.run, c.workflow.value);
      InitializedKeepsSplit(st.run, c.workflow.value, c.log);
      CurrentUnique([], 0);
      var k := CurrentIndex(run.stages);
      assert Names(run.stages) == Plan(c);
      if k < |run.stages| {
        var run' := run.(current := run.stages[k].name, phase := AR.Running);
        if run.stages[k].agentRun.None? {
          CreationEffect(c, run', k, e.creation, lands);
        } else {
          MirrorEffect(c, run', k);
        }
      }
    }
  }

  ghost predicate WorksOn(c: Cluster, run: RunStatus, k: nat) {
    && !AR.Terminal(c.store.run.phase) && Base(c) && SplitStages(run.stages, c.log) && Names(run.stages) == Plan(c)
    && k == CurrentIndex(run.stages) == CurrentIndex(c.store.run.stages) < |run.stages|
    && (c.store.run.stages == [] || c.store.run.stages == run.stages)
  }

  lemma CreationEffect(c: Cluster, run: RunStatus, k: nat, creation: Creation, lands: bool)
    requires WorksOn(c, run, k) && run.stages[k].agentRun.None?
    ensures var next := StageCreation(c.store, run, k, creation);
      var st := if lands then next else next.(run := c.store.run);
      && Names(next.run.stages) == Plan(c)
      && CurrentIndex(next.run.stages) == k
      && (st.agentRuns == c.store.agentRuns || CreatesCurrent(c, st))
  {
    var next := StageCreation(c.store, run, k, creation).run;
    assert next.stages == run.stages[k := next.stages[k]];
    UpdateKeepsSplit(run.stages, k, next.stages[k], c.log);
    assert Plan(c)[k] == run.stages[k].name;
  }

  lemma MirrorEffect(c: Cluster, run: RunStatus, k: nat)
    requires WorksOn(c, run, k) && run.stages[k].agentRun.Some?
    ensures var next := StageMirror(c.store, run, k);
      && Names(next.stages) == Plan(c)
      && (CurrentIndex(next.stages) == k || (CurrentIndex(next.stages) == k + 1 && CurrentSucceeded(c)))
  {
    var next := StageMirror(c.store, run, k);
    StageWorkMoves(c.store, run, k, Transient);
    assert next.stages == run.stages[k := next.stages[k]];
    MirrorSound(c, run, k);
    UpdateKeepsSplit(run.stages, k, next.stages[k], c.log);
  }

  /** A stage is only ever mirrored as Succeeded from its own succeeded AgentRun. */
  lemma MirrorSound(c: Cluster, run: RunStatus, k: nat)
    requires WorksOn(c, run, k) && run.stages[k].agentRun.Some?
    ensures var s := StageMirror(c.store, run, k).stages[k];
      StageSound(s, c.log) && (s.phase == AR.Succeeded ==> CurrentSucceeded(c))
  {
    assert StageSound(run.stages[k], c.log);
    assert Plan(c)[k] == run.stages[k].name;
  }

  /** A stage's AgentRun is created only once every earlier stage's harness has exited 0. */
  lemma CreatedAfterPredecessors(c: Cluster, e: Reading, lands: bool)
    requires Base(c) && Persisted(c.store, c.workflow, e, lands).agentRuns != c.store.agentRuns
    ensures CreatesCurrent(c, Persisted(c.store, c.workflow, e, lands))
    ensures forall i :: 0 <= i < CurrentIndex(c.store.run.stages) ==> FinishedWith0(c.log, Plan(c)[i])
  {
    ReconcileEffect(c, e, lands);
    forall i | 0 <= i < CurrentIndex(c.store.run.stages) ensures FinishedWith0(c.log, Plan(c)[i]) {
      assert StageSound(c.store.run.stages[i], c.log);
    }
  }

  // ---------------------------------------------------------------- what one reconcile decides

  /** Nothing keeps this reconcile from working on the run. */
  predicate Works(c: Cluster, e: Reading) {
    !AR.Terminal(c.store.run.phase) && c.workflow.Some? && e.ready
  }

  /** The current stage's AgentRun is on record. */
  ghost predicate Mirrors(c: Cluster) {
    CurrentIndex(c.store.run.stages) < |c.store.run.stages| && Recorded(c, CurrentIndex(c.store.run.stages))
  }

  ghost function CurrentRun(c: Cluster): string
    requires Mirrors(c)
  {
    c.store.run.stages[CurrentIndex(c.store.run.stages)].agentRun.value
  }

  /** The current stage's AgentRun is gone, or its Succeeded condition is False. */
  ghost predicate CurrentFailed(c: Cluster)
    requires Mirrors(c)
  {
    var n := CurrentRun(c);
    n !in c.store.agentRuns || Outcome(c, n) == Some(AR.False)
  }

  function Outcome(c: Cluster, n: string): Option<AR.Truth>
    requires n in c.store.agentRuns
  {
    match c.store.agentRuns[n].status.succeeded
    case Some(condition) => Some(condition.status)
    case None => None
  }

  /**
   The current stage mirrors its AgentRun, and the run follows it: over exactly when that is gone or
   failed, one stage further exactly when it succeeded, and else still at work on this stage.
   */
  lemma MirrorTable(c: Cluster, e: Reading)
    requires Base(c) && Works(c, e) && !e.readFails && Mirrors(c)
    ensures var k, run := CurrentIndex(c.store.run.stages), Persisted(c.store, c.workflow, e, true).run;
      && Persisted(c.store, c.workflow, e, true).agentRuns == c.store.agentRuns
      && k < |run.stages| && run.stages == c.store.run.stages[k := run.stages[k]]
      && run.stages[k] == c.store.run.stages[k].(phase := run.stages[k].phase)
      && run.stages[k].phase == (if CurrentRun(c) in c.store.agentRuns then c.store.agentRuns[CurrentRun(c)].status.phase
                                 else AR.Failed)
      && run.current == run.stages[k].name && run.started
      && (run.phase == AR.Failed <==> CurrentFailed(c))
      && (run.phase == AR.Failed ==> run.completed)
      && (run.phase != AR.Failed ==> run.phase == AR.Running && run.completed == c.store.run.completed)
      && CurrentIndex(run.stages) ==
           if !CurrentFailed(c) && Outcome(c, CurrentRun(c)) == Some(AR.True) then k + 1 else k
  {
    var k, stages := CurrentIndex(c.store.run.stages), c.store.run.stages;
    var run := Persisted(c.store, c.workflow, e, true).run;
    var planned := c.store.run.(started := true, current := stages[k].name, phase := AR.Running);
    assert run == StageMirror(c.store, planned, k);
    assert StageSound(stages[k], c.log);
    if CurrentRun(c) in c.store.agentRuns {
      assert ChildSound(c, CurrentRun(c), c.store.agentRuns[CurrentRun(c)]);
    }
    assert stages[k := run.stages[k]] == run.stages;
    UpdateKeepsSplit(stages, k, run.stages[k], c.log);
  }

  /** The stages a working reconcile goes by: the snapshot, which it takes if there is none. */
  ghost function PlannedStages(c: Cluster): seq<StageStatus>
    requires c.workflow.Some?
  {
    if c.store.run.stages != [] then c.store.run.stages else Snapshot(c.workflow.value)
  }

  lemma CreationBranch(c: Cluster, e: Reading)
    requires Base(c) && Works(c, e) && !Mirrors(c) && CurrentIndex(PlannedStages(c)) < |PlannedStages(c)|
    ensures var k, run := CurrentIndex(PlannedStages(c)), Initialized(c.store.run, c.workflow.value);
      && run.stages == PlannedStages(c) && run.started && run.completed == c.store.run.completed
      && Persisted(c.store, c.workflow, e, true) ==
           StageCreation(c.store, run.(current := run.stages[k].name, phase := AR.Running), k, e.creation)
  {
    CurrentUnique([], 0);
  }

  /**
   A current stage that is not on record gets its AgentRun, unless its configuration is in error,
   which ends the run.
   */
  lemma CreationTable(c: Cluster, e: Reading)
    requires Base(c) && Works(c, e) && !Mirrors(c) && CurrentIndex(PlannedStages(c)) < |PlannedStages(c)|
    ensures var next, stages, k := Persisted(c.store, c.workflow, e, true), PlannedStages(c), CurrentIndex(PlannedStages(c));
      var stage := stages[k];
      && next.run.current == stage.name && next.run.started
      && match e.creation
         case Created =>
           && next.run.stages == stages[k := StageStatus(stage.name, AR.Pending, Some(stage.name))]
           && next.run.phase == AR.Running && next.run.completed == c.store.run.completed
           && stage.name in next.agentRuns
         case Unacknowledged =>
           && next.run.stages == stages && next.run.phase == AR.Running && next.run.completed == c.store.run.completed
           && stage.name in next.agentRuns
         case Transient =>
           && next.run.stages == stages && next.run.phase == AR.Running && next.run.completed == c.store.run.completed
           && next.agentRuns == c.store.agentRuns
         case ConfigError =>
           && next.run.stages == stages[k := stage.(phase := AR.Failed)]
           && next.run.phase == AR.Failed && next.run.completed && next.agentRuns == c.store.agentRuns
    ensures forall n :: n in c.store.agentRuns ==>
      && n in Persisted(c.store, c.workflow, e, true).agentRuns
      && Persisted(c.store, c.workflow, e, true).agentRuns[n] == c.store.agentRuns[n]
  {
    CreationBranch(c, e);
  }

  /**
   Without a workflow the run ends; until that is ready, and once it is over, nothing changes; with
   no stage left it has succeeded.
   */
  lemma IdleTable(c: Cluster, e: Reading)
    ensures var next := Persisted(c.store, c.workflow, e, true);
      && (AR.Terminal(c.store.run.phase) ==> next == c.store)
      && (!AR.Terminal(c.store.run.phase) && c.workflow.None? ==>
            next == c.store.(run := c.store.run.(phase := AR.Failed, completed := true)))
      && (!AR.Terminal(c.store.run.phase) && c.workflow.Some? && !e.ready ==> next == c.store)
      && (Works(c, e) && e.readFails && Mirrors(c) ==> next == c.store)
      && (Works(c, e) && CurrentIndex(PlannedStages(c)) == |PlannedStages(c)| ==>
            && next.agentRuns == c.store.agentRuns && next.run.stages == PlannedStages(c)
            && next.run.phase == AR.Succeeded && next.run.completed && next.run.current == "")
  {
  }

  // ---------------------------------------------------------------- why a run failed

  /** This reconcile ends the run as failed. */
  ghost predicate FailsRun(c: Cluster, s: Step) {
    && s.Reconcile? && s.lands && !AR.Terminal(c.store.run.phase)
    && (|| c.workflow.None?
        || (s.reading.ready && s.reading.creation == ConfigError && !Mirrors(c)
              && CurrentIndex(PlannedStages(c)) < |PlannedStages(c)|)
        || (s.reading.ready && !s.reading.readFails && Mirrors(c) && CurrentFailed(c)))
  }

  ghost predicate FailedAt(w: Option<seq<string>>, steps: seq<Step>, i: nat) {
    i < |steps| && Legal(Init(w), steps[..i]) && FailsRun(After(Init(w), steps[..i]), steps[i])
  }

  lemma {:induction false} AfterSnoc(c: Cluster, steps: seq<Step>, s: Step)
    requires Legal(c, steps + [s])
    ensures Legal(c, steps) && Enabled(After(c, steps), s) && After(c, steps + [s]) == Next(After(c, steps), s)
    decreases |steps|
  {
    if steps == [] {
      assert [s][1..] == [] && steps + [s] == [s];
      assert Legal(Next(c, s), [s][1..]);
    } else {
      assert (steps + [s])[1..] == steps[1..] + [s];
      AfterSnoc(Next(c, steps[0]), steps[1..], s);
    }
  }

  /** A live run that fails has a reason to. */
  lemma FailureHasReason(c: Cluster, s: Step)
    requires Base(c) && Enabled(c, s) && c.store.run.phase != AR.Failed && Next(c, s).store.run.phase == AR.Failed
    ensures FailsRun(c, s)
  {
    if c.workflow.Some? {
      var stages := PlannedStages(c);
      CurrentUnique([], 0);
      if Mirrors(c) && !s.reading.readFails { MirrorTable(c, s.reading); }
      if !Mirrors(c) && CurrentIndex(stages) < |stages| { CreationTable(c, s.reading); }
      IdleTable(c, s.reading);
    }
  }

  /**
   In every reachable run, Failed has a cause: at some landed reconcile the workflow was missing, the
   current stage's configuration was in error, or its AgentRun was gone or had failed.
   */
  lemma {:induction false} FailedHasCause(w: Option<seq<string>>, steps: seq<Step>) returns (i: nat)
    requires ValidWorkflow(w) && Legal(Init(w), steps) && After(Init(w), steps).store.run.phase == AR.Failed
    ensures FailedAt(w, steps, i)
    decreases |steps|
  {
    var front, s := steps[..|steps| - 1], steps[|steps| - 1];
    assert steps == front + [s];
    AfterSnoc(Init(w), front, s);
    InitBase(w);
    RunKeepsBase(Init(w), front);
    if After(Init(w), front).store.run.phase == AR.Failed {
      i := FailedHasCause(w, front);
      assert steps[..i] == front[..i];
    } else {
      FailureHasReason(After(Init(w), front), s);
      i := |front|;
      assert steps[..i] == front;
    }
  }

  /** And each of these does end it, with its completion time. */
  lemma CauseFails(c: Cluster, s: Step)
    requires Base(c) && Enabled(c, s) && FailsRun(c, s)
    ensures Next(c, s).store.run.phase == AR.Failed && Next(c, s).store.run.completed
  {
    IdleTable(c, s.reading);
    if c.workflow.Some? {
      if Mirrors(c) { MirrorTable(c, s.reading); } else { CreationTable(c, s.reading); }
    }
  }

  /** A run has its completion time exactly when it is over. */
  lemma {:induction false} CompletedExactly(w: Option<seq<string>>, steps: seq<Step>)
    requires ValidWorkflow(w) && Legal(Init(w), steps)
    ensures var run := After(Init(w), steps).store.run; run.completed <==> AR.Terminal(run.phase)
    decreases |steps|
  {
    if steps != [] {
      var front, s := steps[..|steps| - 1], steps[|steps| - 1];
      assert steps == front + [s];
      AfterSnoc(Init(w), front, s);
      CompletedExactly(w, front);
      CompletionStep(After(Init(w), front), s);
    }
  }

  lemma CompletionStep(c: Cluster, s: Step)
    requires Enabled(c, s) && (c.store.run.completed <==> AR.Terminal(c.store.run.phase))
    ensures Next(c, s).store.run.completed <==> AR.Terminal(Next(c, s).store.run.phase)
  {
  }
}
