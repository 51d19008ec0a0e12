/**
 The Gateway verification cache (internal/controller/gateway_controller.go): a settled Ready
 verdict is reused only for the generation and credential digest it was computed for.

 A verification Job carries the pair it was created for; the controller only ever finds Jobs
 by name.  How names are derived from pairs is a parameter, because the name keeps just a
 short prefix of the digest.
 */
module GatewayCache {
  import opened Common

  type Digest = nat

  type Pair = (nat, Digest)           // generation, credential digest

  datatype Reason =
    | CredentialSecretNotFound | CredentialKeyNotFound | CredentialSecretEmpty
    | Verifying
    | ConnectionVerified | ConnectionFailed | AuthenticationFailed | EndpointUnreachable
    | VerificationSkipped

  predicate Terminal(r: Reason) {
    r.ConnectionVerified? || r.ConnectionFailed? || r.AuthenticationFailed? || r.EndpointUnreachable?
    || r.VerificationSkipped?
  }

  /** The probe's diagnostic line: its first word, and whether it quotes an HTTP code. */
  datatype Word = NoWord | OkWord | Auth | Http | Unreachable | OtherWord
  datatype Diagnostic = Diagnostic(word: Word, code: bool)

  /** gatewayVerifyReason */
  function VerifyReason(d: Diagnostic, succeeded: bool): (r: Reason)
    ensures Terminal(r) && r != VerificationSkipped
    ensures r == ConnectionVerified <==> succeeded
    ensures r == AuthenticationFailed <==> !succeeded && d == Diagnostic(Auth, true)
    ensures r == EndpointUnreachable <==> !succeeded && d.word == Unreachable
  {
    if succeeded then ConnectionVerified
    else match d.word
      case Auth => if d.code then AuthenticationFailed else ConnectionFailed
      case Unreachable => EndpointUnreachable
      case _ => ConnectionFailed
  }

  datatype Ready = Ready(ok: bool, reason: Reason, observedGeneration: nat)

  /** `judged` is the pair whose verification produced the verdict on record. */
  datatype Status = Status(
    connectionVerified: bool,
    verifiedHash: Option<Digest>,
    ready: Option<Ready>,
    judged: Option<Pair>)

  const FRESH := Status(false, None, None, None)

  datatype Progress = Active | Finished(succeeded: bool, diag: Diagnostic)

  datatype Job = Job(pair: Pair, progress: Progress)

  datatype Credential = SecretMissing | KeyMissing | SecretEmpty | Digested(digest: Digest)

  datatype Cluster = Cluster(
    generation: nat,
    probes: bool,                       // the provider has a models endpoint to probe
    credential: Credential,
    status: Status,
    jobs: map<string, Job>)

  // ---------------------------------------------------------------- one reconcile

  /** Failures a reconcile may meet: stale Jobs it cannot delete, a failing create or delete. */
  datatype Faults = Faults(undeleted: set<string>, createFails: bool, deleteFails: bool)

  datatype Work = Work(status: Status, jobs: map<string, Job>)

  function NotReady(st: Status, reason: Reason, generation: nat): Status {
    st.(connectionVerified := false, ready := Some(Ready(false, reason, generation)))
  }

  predicate Settled(c: Cluster, digest: Digest) {
    && c.status.ready.Some?
    && c.status.ready.value.observedGeneration == c.generation
    && c.status.verifiedHash == Some(digest)
  }

  function Keep(jobs: map<string, Job>, names: set<string>): map<string, Job> {
    map n | n in jobs && n in names :: jobs[n]
  }

  function Reconciled(c: Cluster, jobName: Pair -> string, f: Faults): Work {
    match c.credential
    case SecretMissing => Work(NotReady(c.status, CredentialSecretNotFound, c.generation), c.jobs)
    case KeyMissing => Work(NotReady(c.status, CredentialKeyNotFound, c.generation), c.jobs)
    case SecretEmpty => Work(NotReady(c.status, CredentialSecretEmpty, c.generation), c.jobs)
    case Digested(digest) =>
      var settled := Settled(c, digest);
      if !c.probes then
        if settled && c.status.ready.value.reason == VerificationSkipped then Work(c.status, c.jobs)
        else Work(Status(false, Some(digest), Some(Ready(true, VerificationSkipped, c.generation)),
                         Some((c.generation, digest))),
                  Keep(c.jobs, f.undeleted))
      else if settled && Terminal(c.status.ready.value.reason) then Work(c.status, c.jobs)
      else
        var name := jobName((c.generation, digest));
        var jobs := Keep(c.jobs, f.undeleted + {name});
        if name !in jobs then
          if f.createFails then Work(c.status, jobs)
          else Work(NotReady(c.status, Verifying, c.generation),
                    jobs[name := Job((c.generation, digest), Active)])
        else Judged(c, digest, jobs, name, f)
  }

  function Judged(c: Cluster, digest: Digest, jobs: map<string, Job>, name: string, f: Faults): Work
    requires name in jobs
  {
    match jobs[name].progress
    case Active => Work(NotReady(c.status, Verifying, c.generation), jobs)
    case Finished(succeeded, diag) =>
      Work(Status(succeeded, Some(digest), Some(Ready(succeeded, VerifyReason(diag, succeeded), c.generation)),
                  Some(jobs[name].pair)),
           if f.deleteFails then jobs else jobs - {name})
  }

  class GatewayObject {
    var generation: nat
    var probes: bool
    var credential: Credential
    var status: Status
    var jobs: map<string, Job>

    function View(): Cluster
      reads this
    {
      Cluster(generation, probes, credential, status, jobs)
    }

    constructor (generation: nat, probes: bool, credential: Credential)
      ensures View() == Cluster(generation, probes, credential, FRESH, map[])
    {
      this.generation, this.probes, this.credential := generation, probes, credential;
      status, jobs := FRESH, map[];
    }

    method Reconcile(jobName: Pair -> string, f: Faults, lands: bool)
      modifies this`status, this`jobs
      ensures jobs == Reconciled(old(View()), jobName, f).jobs
      ensures status == if lands then Reconciled(old(View()), jobName, f).status else old(status)
    {
      var st := status;
      match credential {
        case SecretMissing => Patch(NotReady(st, CredentialSecretNotFound, generation), lands); return;
        case KeyMissing => Patch(NotReady(st, CredentialKeyNotFound, generation), lands); return;
        case SecretEmpty => Patch(NotReady(st, CredentialSecretEmpty, generation), lands); return;
        case Digested(_) =>
      }
      var digest := credential.digest;
      var settled := st.ready.Some? && st.ready.value.observedGeneration == generation
                     && st.verifiedHash == Some(digest);
      if !probes {
        if settled && st.ready.value.reason == VerificationSkipped { return; }
        jobs := Keep(jobs, f.undeleted);
        st := st.(connectionVerified := false);
        st := st.(verifiedHash := Some(digest), judged := Some((generation, digest)));
        st := st.(ready := Some(Ready(true, VerificationSkipped, generation)));
        Patch(st, lands);
        return;
      }
      if settled && Terminal(st.ready.value.reason) { return; }
      var name := jobName((generation, digest));
      jobs := Keep(jobs, f.undeleted + {name});
      if name !in jobs {
        if f.createFails { return; }
        jobs := jobs[name := Job((generation, digest), Active)];
        Patch(NotReady(st, Verifying, generation), lands);
        return;
      }
      var job := jobs[name];
      if job.progress.Finished? {
        var succeeded := job.progress.succeeded;
        var reason := VerifyReason(job.progress.diag, succeeded);
        st := st.(connectionVerified := succeeded);
        st := st.(verifiedHash := Some(digest), judged := Some(job.pair));
        st := st.(ready := Some(Ready(succeeded, reason, generation)));
        if !f.deleteFails { jobs := jobs - {name}; }
      } else {
        st := NotReady(st, Verifying, generation);
      }
      Patch(st, lands);
    }

    method Patch(st: Status, lands: bool)
      modifies this`status
      ensures status == if lands then st else old(status)
    {
      if lands { status := st; }
    }
  }

  // ---------------------------------------------------------------- what one reconcile decides

  /** The current pair has a verdict that is to be reused. */
  predicate Reuses(c: Cluster, digest: Digest) {
    && c.status.ready.Some? && c.status.ready.value.observedGeneration == c.generation
    && c.status.verifiedHash == Some(digest)
    && var reason := c.status.ready.value.reason;
       if c.probes then
         reason in {ConnectionVerified, ConnectionFailed, AuthenticationFailed, EndpointUnreachable, VerificationSkipped}
       else reason == VerificationSkipped
  }

  /** A verdict for the current pair is left as it is, and so are the Jobs. */
  lemma VerdictIsReused(c: Cluster, jobName: Pair -> string, f: Faults, digest: Digest)
    requires c.credential == Digested(digest) && Reuses(c, digest)
    ensures Reconciled(c, jobName, f) == Work(c.status, c.jobs)
  {
  }

  /**
   Without one, the current pair's Job decides: Ready and ConnectionVerified are its own result, and
   only a finished one decides.
   */
  lemma JobDecides(c: Cluster, jobName: Pair -> string, f: Faults, digest: Digest)
    requires c.credential == Digested(digest) && c.probes && !Reuses(c, digest)
    requires jobName((c.generation, digest)) in c.jobs
    ensures var w, job := Reconciled(c, jobName, f), c.jobs[jobName((c.generation, digest))];
      && w.status.ready.Some? && w.status.ready.value.observedGeneration == c.generation
      && match job.progress
         case Active =>
           && w.status == c.status.(connectionVerified := false, ready := w.status.ready)
           && !w.status.ready.value.ok && w.status.ready.value.reason == Verifying
         case Finished(succeeded, diag) =>
           && w.status.connectionVerified == w.status.ready.value.ok == succeeded
           && w.status.verifiedHash == Some(digest) && w.status.judged == Some(job.pair)
           && Explains(w.status.ready.value.reason, succeeded, diag)
    ensures var name := jobName((c.generation, digest));
      name in Reconciled(c, jobName, f).jobs <==> c.jobs[name].progress.Active? || f.deleteFails
  {
  }

  /** The reason a probe's result and diagnostic line stand for. */
  predicate Explains(r: Reason, succeeded: bool, d: Diagnostic) {
    if succeeded then r == ConnectionVerified
    else if d == Diagnostic(Auth, true) then r == AuthenticationFailed
    else if d.word == Unreachable then r == EndpointUnreachable
    else r == ConnectionFailed
  }

  /** ... and if it has none, one is created for exactly this pair; while that fails, nothing is decided. */
  lemma MissingJobIsCreated(c: Cluster, jobName: Pair -> string, f: Faults, digest: Digest)
    requires c.credential == Digested(digest) && c.probes && !Reuses(c, digest)
    requires jobName((c.generation, digest)) !in c.jobs
    ensures var w, name := Reconciled(c, jobName, f), jobName((c.generation, digest));
      if f.createFails then w.status == c.status && name !in w.jobs
      else
        && name in w.jobs && w.jobs[name] == Job((c.generation, digest), Active)
        && w.status == c.status.(connectionVerified := false, ready := Some(Ready(false, Verifying, c.generation)))
  {
  }

  /** Jobs of other pairs go, but for those that cannot be deleted; none is changed. */
  lemma StaleJobsGo(c: Cluster, jobName: Pair -> string, f: Faults, digest: Digest, n: string)
    requires c.credential == Digested(digest) && !Reuses(c, digest)
    requires c.probes ==> n != jobName((c.generation, digest))
    ensures n in Reconciled(c, jobName, f).jobs <==> n in c.jobs && n in f.undeleted
    ensures n in Reconciled(c, jobName, f).jobs ==> Reconciled(c, jobName, f).jobs[n] == c.jobs[n]
  {
  }

  /** A provider without a models endpoint is Ready without having been probed. */
  lemma SkippedWithoutProbe(c: Cluster, jobName: Pair -> string, f: Faults, digest: Digest)
    requires c.credential == Digested(digest) && !c.probes && !Reuses(c, digest)
    ensures Reconciled(c, jobName, f).status ==
      Status(false, Some(digest), Some(Ready(true, VerificationSkipped, c.generation)), Some((c.generation, digest)))
  {
  }

  /** A credential that cannot be read makes the Gateway not Ready, saying why, and leaves hash and Jobs alone. */
  lemma UnreadableIsNotReady(c: Cluster, jobName: Pair -> string, f: Faults)
    requires !c.credential.Digested?
    ensures var w := Reconciled(c, jobName, f);
      && w.jobs == c.jobs && w.status.verifiedHash == c.status.verifiedHash && w.status.judged == c.status.judged
      && !w.status.connectionVerified && w.status.ready.Some? && !w.status.ready.value.ok
      && w.status.ready.value.observedGeneration == c.generation
      && (w.status.ready.value.reason == CredentialSecretNotFound <==> c.credential.SecretMissing?)
      && (w.status.ready.value.reason == CredentialKeyNotFound <==> c.credential.KeyMissing?)
      && (w.status.ready.value.reason == CredentialSecretEmpty <==> c.credential.SecretEmpty?)
  {
  }

  // ---------------------------------------------------------------- every history of a Gateway

  datatype Step =
    | Reconcile(faults: Faults, lands: bool)
    | EditSpec(generation: nat, probes: bool)       // one or more spec changes
    | ChangeSecret(credential: Credential)
    | FinishJob(name: string, succeeded: bool, diag: Diagnostic)
    | LoseJob(name: string)

  predicate Enabled(c: Cluster, s: Step) {
    match s
    case EditSpec(g, _) => g > c.generation
    case FinishJob(n, _, _) => n in c.jobs && c.jobs[n].progress.Active?
    case _ => true
  }

  function Next(c: Cluster, jobName: Pair -> string, s: Step): Cluster
    requires Enabled(c, s)
  {
    match s
    case Reconcile(f, lands) =>
      var w := Reconciled(c, jobName, f);
      c.(jobs := w.jobs, status := if lands then w.status else c.status)
    case EditSpec(g, probes) => c.(generation := g, probes := probes)
    case ChangeSecret(cred) => c.(credential := cred)
    case FinishJob(n, ok, diag) => c.(jobs := c.jobs[n := c.jobs[n].(progress := Finished(ok, diag))])
    case LoseJob(n) => c.(jobs := c.jobs - {n})
  }

  predicate Legal(c: Cluster, jobName: Pair -> string, ss: seq<Step>)
    decreases |ss|
  {
    ss == [] || (Enabled(c, ss[0]) && Legal(Next(c, jobName, ss[0]), jobName, ss[1..]))
  }

  function After(c: Cluster, jobName: Pair -> string, ss: seq<Step>): Cluster
    requires Legal(c, jobName, ss)
    decreases |ss|
  {
    if ss == [] then c else After(Next(c, jobName, ss[0]), jobName, ss[1..])
  }

  function Init(generation: nat, probes: bool, credential: Credential): Cluster {
    Cluster(generation, probes, credential, FRESH, map[])
  }

  // ---------------------------------------------------------------- under any naming of Jobs

  /** ConnectionVerified says what the reason says; a skipped Gateway is judged for its own pair. */
  ghost predicate Coherent(st: Status) {
    && (st.connectionVerified <==> st.ready.Some? && st.ready.value.reason == ConnectionVerified)
    && (st.ready.Some? ==> (st.ready.value.ok <==> st.ready.value.reason.ConnectionVerified?
                                                   || st.ready.value.reason.VerificationSkipped?))
    && (st.ready.Some? && Terminal(st.ready.value.reason) ==> st.judged.Some? && st.verifiedHash.Some?)
  }

  lemma {:induction false} RunKeepsCoherent(c: Cluster, jobName: Pair -> string, ss: seq<Step>)
    requires Coherent(c.status) && Legal(c, jobName, ss)
    ensures Coherent(After(c, jobName, ss).status)
    decreases |ss|
  {
    if ss != [] {
      assert Coherent(Next(c, jobName, ss[0]).status);
      RunKeepsCoherent(Next(c, jobName, ss[0]), jobName, ss[1..]);
    }
  }

  // ---------------------------------------------------------------- the verdict is the Job's

  lemma {:induction false} AfterSnoc(c: Cluster, jobName: Pair -> string, ss: seq<Step>, s: Step)
    requires Legal(c, jobName, ss + [s])
    ensures Legal(c, jobName, ss) && Enabled(After(c, jobName, ss), s)
    ensures After(c, jobName, ss + [s]) == Next(After(c, jobName, ss), jobName, s)
    decreases |ss|
  {
    if ss == [] {
      assert [s][1..] == [] && ss + [s] == [s];
    } else {
      assert (ss + [s])[1..] == ss[1..] + [s];
      AfterSnoc(Next(c, jobName, ss[0]), jobName, ss[1..], s);
    }
  }

  /** At step i of the history a Job of this pair finished like that. */
  ghost predicate FinishedAt(c: Cluster, jobName: Pair -> string, ss: seq<Step>, i: nat, pair: Pair, ok: bool, diag: Diagnostic) {
    && i < |ss| && ss[i].FinishJob? && ss[i].succeeded == ok && ss[i].diag == diag
    && Legal(c, jobName, ss[..i])
    && ss[i].name in After(c, jobName, ss[..i]).jobs && After(c, jobName, ss[..i]).jobs[ss[i].name].pair == pair
  }

  lemma FinishedEarlier(c: Cluster, jobName: Pair -> string, front: seq<Step>, s: Step, i: nat, pair: Pair, ok: bool,
                        diag: Diagnostic)
    requires FinishedAt(c, jobName, front, i, pair, ok, diag)
    ensures FinishedAt(c, jobName, front + [s], i, pair, ok, diag)
  {
    assert (front + [s])[..i] == front[..i];
  }

  lemma {:induction false} JobWasFinished(c: Cluster, jobName: Pair -> string, ss: seq<Step>, n: string) returns (i: nat)
    requires c.jobs == map[] && Legal(c, jobName, ss)
    requires n in After(c, jobName, ss).jobs && After(c, jobName, ss).jobs[n].progress.Finished?
    ensures var job := After(c, jobName, ss).jobs[n];
      FinishedAt(c, jobName, ss, i, job.pair, job.progress.succeeded, job.progress.diag)
    decreases |ss|
  {
    var front, s := ss[..|ss| - 1], ss[|ss| - 1];
    assert ss == front + [s];
    AfterSnoc(c, jobName, front, s);
    var d := After(c, jobName, front);
    if s.FinishJob? && s.name == n {
      i := |front|;
      assert ss[..i] == front;
    } else {
      FinishedWasThere(d, jobName, s, n);
      i := JobWasFinished(c, jobName, front, n);
      FinishedEarlier(c, jobName, front, s, i, d.jobs[n].pair, d.jobs[n].progress.succeeded, d.jobs[n].progress.diag);
    }
  }

  /** Only its own finishing makes a Job finished. */
  lemma FinishedWasThere(c: Cluster, jobName: Pair -> string, s: Step, n: string)
    requires Enabled(c, s) && !(s.FinishJob? && s.name == n)
    requires n in Next(c, jobName, s).jobs && Next(c, jobName, s).jobs[n].progress.Finished?
    ensures n in c.jobs && c.jobs[n] == Next(c, jobName, s).jobs[n]
  {
  }

  predicate ProbeVerdict(st: Status) {
    st.ready.Some? && Terminal(st.ready.value.reason) && st.ready.value.reason != VerificationSkipped
  }

  /** The status says what this probe result stands for. */
  predicate Reports(st: Status, ok: bool, diag: Diagnostic) {
    st.ready.Some? && st.connectionVerified == st.ready.value.ok == ok && Explains(st.ready.value.reason, ok, diag)
  }

  /**
   In every history, a verdict on record is the result of a Job that finished for the pair it was judged
   for: ConnectionVerified only if that Job succeeded, a failure reason only if it failed, and the one
   its diagnostic line stands for.
   */
  lemma {:induction false} VerdictWasProbed(c: Cluster, jobName: Pair -> string, ss: seq<Step>)
      returns (i: nat, diag: Diagnostic)
    requires c == Init(c.generation, c.probes, c.credential) && Legal(c, jobName, ss)
    requires ProbeVerdict(After(c, jobName, ss).status)
    ensures var st := After(c, jobName, ss).status;
      && st.judged.Some? && FinishedAt(c, jobName, ss, i, st.judged.value, st.connectionVerified, diag)
      && Reports(st, st.connectionVerified, diag)
    decreases |ss|
  {
    var front, s := ss[..|ss| - 1], ss[|ss| - 1];
    assert ss == front + [s];
    AfterSnoc(c, jobName, front, s);
    var d, st := After(c, jobName, front), After(c, jobName, ss).status;
    if st == d.status {
      i, diag := VerdictWasProbed(c, jobName, front);
    } else {
      var name := JudgedNow(d, jobName, s);
      i := JobWasFinished(c, jobName, front, name);
      diag := d.jobs[name].progress.diag;
    }
    FinishedEarlier(c, jobName, front, s, i, st.judged.value, st.connectionVerified, diag);
  }

  lemma JudgedNow(c: Cluster, jobName: Pair -> string, s: Step) returns (name: string)
    requires Enabled(c, s) && Next(c, jobName, s).status != c.status && ProbeVerdict(Next(c, jobName, s).status)
    ensures name in c.jobs && c.jobs[name].progress.Finished?
    ensures var st, job := Next(c, jobName, s).status, c.jobs[name];
      st.judged == Some(job.pair) && Reports(st, job.progress.succeeded, job.progress.diag)
  {
    name := jobName((c.generation, c.credential.digest));
  }

  /** And a probe's result does get there: created, finished, recorded. */
  lemma ResultIsRecorded(c: Cluster, jobName: Pair -> string, digest: Digest, ok: bool, diag: Diagnostic)
    requires c.credential == Digested(digest) && c.probes && !Reuses(c, digest)
    requires jobName((c.generation, digest)) !in c.jobs
    ensures var name := jobName((c.generation, digest));
      var c1 := Next(c, jobName, Reconcile(CLEAN, true));
      && Enabled(c1, FinishJob(name, ok, diag))
      && var st := Next(Next(c1, jobName, FinishJob(name, ok, diag)), jobName, Reconcile(CLEAN, true)).status;
         Reports(st, ok, diag) && st.judged == Some((c.generation, digest)) && st.verifiedHash == Some(digest)
  {
    MissingJobIsCreated(c, jobName, CLEAN, digest);
    var name := jobName((c.generation, digest));
    var c2 := Next(Next(c, jobName, Reconcile(CLEAN, true)), jobName, FinishJob(name, ok, diag));
    JobDecides(c2, jobName, CLEAN, digest);
  }

  // ---------------------------------------------------------------- whose verdict is on record

  /** A terminal verdict is recorded for the pair it was computed for. */
  ghost predicate Accurate(st: Status) {
    st.ready.Some? && Terminal(st.ready.value.reason) ==>
      && st.verifiedHash.Some?
      && st.judged == Some((st.ready.value.observedGeneration, st.verifiedHash.value))
  }

  /** The pair a Gateway stands for now, when its credential can be read. */
  function CurrentPair(c: Cluster): Option<Pair> {
    if c.credential.Digested? then Some((c.generation, c.credential.digest)) else None
  }

  /** Every pair that is current at some point of a history belongs to `pairs`. */
  ghost predicate Within(c: Cluster, jobName: Pair -> string, ss: seq<Step>, pairs: iset<Pair>)
    requires Legal(c, jobName, ss)
    decreases |ss|
  {
    && (CurrentPair(c).Some? ==> CurrentPair(c).value in pairs)
    && (ss != [] ==> Within(Next(c, jobName, ss[0]), jobName, ss[1..], pairs))
  }

  /** No two of these pairs share a Job name. */
  ghost predicate Distinct(jobName: Pair -> string, pairs: iset<Pair>) {
    forall p, q :: p in pairs && q in pairs && jobName(p) == jobName(q) ==> p == q
  }

  /** Every Job was created for one of the pairs, under that pair's name. */
  ghost predicate JobsNamed(c: Cluster, jobName: Pair -> string, pairs: iset<Pair>) {
    forall n :: n in c.jobs ==> c.jobs[n].pair in pairs && jobName(c.jobs[n].pair) == n
  }

  lemma ReconcileKeepsAccurate(c: Cluster, jobName: Pair -> string, f: Faults, pairs: iset<Pair>)
    requires Distinct(jobName, pairs) && (CurrentPair(c).Some? ==> CurrentPair(c).value in pairs)
    requires Accurate(c.status) && JobsNamed(c, jobName, pairs)
    ensures Accurate(Reconciled(c, jobName, f).status)
    ensures JobsNamed(c.(jobs := Reconciled(c, jobName, f).jobs), jobName, pairs)
  {
    if c.credential.Digested? && c.probes {
      var pair := (c.generation, c.credential.digest);
      var name := jobName(pair);
      if name in c.jobs {
        assert jobName(c.jobs[name].pair) == jobName(pair);
      }
    }
  }

  lemma StepKeepsAccurate(c: Cluster, jobName: Pair -> string, s: Step, pairs: iset<Pair>)
    requires Distinct(jobName, pairs) && Enabled(c, s) && (CurrentPair(c).Some? ==> CurrentPair(c).value in pairs)
    requires Accurate(c.status) && JobsNamed(c, jobName, pairs)
    ensures Accurate(Next(c, jobName, s).status) && JobsNamed(Next(c, jobName, s), jobName, pairs)
  {
    if s.Reconcile? {
      ReconcileKeepsAccurate(c, jobName, s.faults, pairs);
    }
  }

  /** If no two pairs of a history share a Job name, every terminal verdict in it is recorded for its own pair. */
  lemma {:induction false} RunKeepsAccurate(c: Cluster, jobName: Pair -> string, ss: seq<Step>, pairs: iset<Pair>)
    requires Legal(c, jobName, ss) && Within(c, jobName, ss, pairs) && Distinct(jobName, pairs)
    requires Accurate(c.status) && JobsNamed(c, jobName, pairs)
    ensures Accurate(After(c, jobName, ss).status) && JobsNamed(After(c, jobName, ss), jobName, pairs)
    ensures CurrentPair(After(c, jobName, ss)).Some? ==> CurrentPair(After(c, jobName, ss)).value in pairs
    decreases |ss|
  {
    if ss != [] {
      StepKeepsAccurate(c, jobName, ss[0], pairs);
      RunKeepsAccurate(Next(c, jobName, ss[0]), jobName, ss[1..], pairs);
    }
  }

  /** Accurate in every history that keeps to these pairs. */
  ghost predicate AlwaysAccurate(jobName: Pair -> string, pairs: iset<Pair>) {
    forall g, probes, cred, ss ::
      Legal(Init(g, probes, cred), jobName, ss) && Within(Init(g, probes, cred), jobName, ss, pairs) ==>
        Accurate(After(Init(g, probes, cred), jobName, ss).status)
  }

  const CLEAN := Faults({}, false, false)

  /** Two pairs sharing a Job name: a history with no other pair records the first one's verdict for the second. */
  lemma SharedNameMisattributes(jobName: Pair -> string, p: Pair, q: Pair) returns (c: Cluster, ss: seq<Step>)
    requires p != q && p.0 <= q.0 && jobName(p) == jobName(q)
    ensures c == Init(p.0, true, Digested(p.1))
    ensures Legal(c, jobName, ss) && Within(c, jobName, ss, iset{p, q}) && !Accurate(After(c, jobName, ss).status)
  {
    c := Init(p.0, true, Digested(p.1));
    var c1 := Next(c, jobName, Reconcile(CLEAN, true));
    assert c1.jobs[jobName(p)] == Job(p, Active);
    var finish := FinishJob(jobName(p), true, Diagnostic(OkWord, true));
    var c2 := Next(c1, jobName, finish);
    ss := SwitchPair(c2, jobName, p, q);
    Cons(c1, jobName, finish, ss, iset{p, q});
    ss := [finish] + ss;
    Cons(c, jobName, Reconcile(CLEAN, true), ss, iset{p, q});
    ss := [Reconcile(CLEAN, true)] + ss;
  }

  /**
   The credential goes away, the spec changes, another credential comes: the finished Job is read
   for the new pair.
   */
  lemma SwitchPair(c: Cluster, jobName: Pair -> string, p: Pair, q: Pair) returns (ss: seq<Step>)
    requires p != q && p.0 <= q.0 && jobName(p) == jobName(q)
    requires c.generation == p.0 && c.probes && c.credential == Digested(p.1)
    requires c.status.ready == Some(Ready(false, Verifying, p.0))
    requires c.jobs == map[jobName(p) := Job(p, Finished(true, Diagnostic(OkWord, true)))]
    ensures Legal(c, jobName, ss) && Within(c, jobName, ss, iset{p, q}) && !Accurate(After(c, jobName, ss).status)
  {
    var leave, arrive, check := ChangeSecret(SecretMissing), ChangeSecret(Digested(q.1)), Reconcile(CLEAN, true);
    var c1 := Next(c, jobName, leave);
    var c2 := if p.0 < q.0 then Next(c1, jobName, EditSpec(q.0, true)) else c1;
    var c3 := Next(c2, jobName, arrive);
    var c4 := Next(c3, jobName, check);
    assert jobName(q) in c3.jobs;
    assert c4.status.judged == Some(p) && c4.status.ready == Some(Ready(true, ConnectionVerified, q.0));
    Cons(c3, jobName, check, [], iset{p, q});
    Cons(c2, jobName, arrive, [check], iset{p, q});
    ss := [arrive] + [check];
    if p.0 < q.0 {
      Cons(c1, jobName, EditSpec(q.0, true), ss, iset{p, q});
      ss := [EditSpec(q.0, true)] + ss;
    }
    Cons(c, jobName, leave, ss, iset{p, q});
    ss := [leave] + ss;
  }

  lemma Cons(c: Cluster, jobName: Pair -> string, s: Step, ss: seq<Step>, pairs: iset<Pair>)
    requires Enabled(c, s) && Legal(Next(c, jobName, s), jobName, ss)
    requires CurrentPair(c).Some? ==> CurrentPair(c).value in pairs
    requires Within(Next(c, jobName, s), jobName, ss, pairs)
    ensures Legal(c, jobName, [s] + ss) && Within(c, jobName, [s] + ss, pairs)
    ensures After(c, jobName, [s] + ss) == After(Next(c, jobName, s), jobName, ss)
  {
    assert ([s] + ss)[1..] == ss;
  }

  lemma {:induction false} WithinMore(c: Cluster, jobName: Pair -> string, ss: seq<Step>, a: iset<Pair>, b: iset<Pair>)
    requires Legal(c, jobName, ss) && Within(c, jobName, ss, a) && a <= b
    ensures Within(c, jobName, ss, b)
    decreases |ss|
  {
    if ss != [] { WithinMore(Next(c, jobName, ss[0]), jobName, ss[1..], a, b); }
  }

  /**
   Whatever pairs a Gateway goes through: verdicts are recorded for the right pair in every history
   over them, exactly when no two of them share a Job name.
   */
  lemma AccurateExactly(jobName: Pair -> string, pairs: iset<Pair>)
    ensures AlwaysAccurate(jobName, pairs) <==> Distinct(jobName, pairs)
  {
    if Distinct(jobName, pairs) {
      forall g, probes, cred, ss |
        Legal(Init(g, probes, cred), jobName, ss) && Within(Init(g, probes, cred), jobName, ss, pairs)
        ensures Accurate(After(Init(g, probes, cred), jobName, ss).status)
      {
        RunKeepsAccurate(Init(g, probes, cred), jobName, ss, pairs);
      }
    } else {
      var p, q :| p in pairs && q in pairs && jobName(p) == jobName(q) && p != q;
      if p.0 > q.0 { p, q := q, p; }
      var c, ss := SharedNameMisattributes(jobName, p, q);
      WithinMore(c, jobName, ss, iset{p, q}, pairs);
    }
  }

  /**
   After any history whose pairs have distinct Job names, a reconcile that can read the credential
   (and create a Job) leaves a Ready condition for the current generation; if it is a verdict, it
   was computed for the current generation and credential.  So the early return never reuses one
   across a spec change or rotation.
   */
  lemma VerdictIsCurrent(c0: Cluster, jobName: Pair -> string, ss: seq<Step>, pairs: iset<Pair>, f: Faults, digest: Digest)
    requires c0 == Init(c0.generation, c0.probes, c0.credential) && Legal(c0, jobName, ss)
    requires Within(c0, jobName, ss, pairs) && Distinct(jobName, pairs)
    requires After(c0, jobName, ss).credential == Digested(digest) && !f.createFails
    ensures var c := After(c0, jobName, ss);
      var st := Reconciled(c, jobName, f).status;
      && st.ready.Some? && st.ready.value.observedGeneration == c.generation
      && (Terminal(st.ready.value.reason) ==>
            st.verifiedHash == Some(digest) && st.judged == Some((c.generation, digest)))
  {
    RunKeepsAccurate(c0, jobName, ss, pairs);
    ReconcileKeepsAccurate(After(c0, jobName, ss), jobName, f, pairs);
  }

  // ---------------------------------------------------------------- the controller's own naming

  /**
   verificationJobName keeps the generation and the digest's leading digits: what is left after
   dividing by `unit`.
   */
  ghost predicate KeepsPrefix(jobName: Pair -> string, unit: nat)
    requires unit > 1
  {
    forall g: nat, d: Digest, e: Digest :: d / unit == e / unit ==> jobName((g, d)) == jobName((g, e))
  }

  /** Such a naming does not tell all pairs apart, so which pairs a history meets is what matters. */
  lemma PrefixIsNotDistinct(jobName: Pair -> string, unit: nat)
    requires unit > 1 && KeepsPrefix(jobName, unit)
    ensures !AlwaysAccurate(jobName, iset{(0, 0), (0, 1)})
  {
    var p: Pair, q: Pair := (0, 0), (0, 1);
    assert 0 / unit == 0 && 1 / unit == 0;
    assert jobName(p) == jobName(q) && p in iset{p, q} && q in iset{p, q};
    AccurateExactly(jobName, iset{p, q});
  }
}
