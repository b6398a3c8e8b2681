/** What every durable write of the orchestrator keeps true. */
module DeploymentInvariant {
  import opened Basics
  import opened DeploymentModel

  ghost predicate Inv(s: State) {
    && JobsUnique(s.jobs)
    && AllJobsOk(s)
    && AllRunsOk(s)
    && Exclusive(s.runs)
    && OneAfterAnother(s.runs)
    && DeliveredOk(s)
    && RootsOwned(s.executors)
    && ProfilesOk(s.profiles)
  }

  ghost predicate AllJobsOk(s: State) {
    forall j :: j in s.jobs ==> JobOk(s, s.jobs[j])
  }

  ghost predicate AllRunsOk(s: State) {
    forall r :: r in s.runs ==> RunOk(s, r)
  }

  ghost predicate ProfilesOk(profiles: map<ProfileId, Config>) {
    forall p :: p in profiles ==> ValidConfig(profiles[p]) && profiles[p].profile == p
  }

  /** At most one job for a run, component and kind. */
  ghost predicate JobsUnique(jobs: map<JobId, Job>) {
    forall i, j :: i in jobs && j in jobs && Is(jobs[i], jobs[j].run, jobs[j].component, jobs[j].kind) ==> i == j
  }

  ghost predicate JobOk(s: State, job: Job) {
    && job.run in s.runs
    && var r, c, run := job.run, job.component, s.runs[job.run];
    && c in run.parts && c in run.config.specs
    && job.profile == run.config.profile && job.expires == run.expires
    && (forall x :: x in InRun(run, c) ==> Deployed(s.jobs, r, x))
    && var spec, part := run.config.specs[c], run.parts[c];
    && match job.kind
       case BuildJob =>
         && run.body.operation == Operation.Deploy
         && job.executor == spec.builder
         && r in s.sources && s.sources[r] == Published(job.sourceHead)
         && (run.status == Publishing ==> job.status == Queued)
         && (job.status != Queued ==> run.sourceHead == Some(job.sourceHead))
         && (job.status == JobSucceeded ==> job.output.Some?)
       case DeployJob =>
         && run.status != Publishing && part.artifact == Some(job.input)
         && job.executor == spec.destination && job.binding == spec.binding
         && part.release.Some? && part.release.value in s.sources
         && s.sources[part.release.value] == Published(job.sourceHead)
         && (HoldsTarget(job) ==> Unfinished(run))
  }

  /** Work that may have touched its destination and has not been resolved. */
  predicate HoldsTarget(job: Job) {
    job.kind == DeployJob && (job.status == Working || job.status == JobUncertain)
  }

  ghost predicate RunOk(s: State, r: RunId)
    requires r in s.runs
  {
    var run := s.runs[r];
    && ValidConfig(run.config) && run.parts.Keys <= run.config.specs.Keys && run.parts != map[]
    && run.created <= run.updated <= s.clock
    && (run.body.operation == Rollback ==> run.status != Publishing && run.sourceHead.None?)
    && (run.sourceHead.Some? ==> r in s.sources && s.sources[r] == Published(run.sourceHead.value))
    && (run.status == Running && run.body.operation == Operation.Deploy ==> run.sourceHead.Some?)
    && (run.status == Publishing || run.status == Running ==> !Any(run.parts, PartUncertain))
    && (!Unfinished(run) ==> Settled(run.parts))
    && (run.resolution.Some? ==> !Unfinished(run))
    && (forall c :: c in run.parts ==> PartOk(s, r, c))
  }

  ghost predicate PartOk(s: State, r: RunId, c: ComponentId)
    requires r in s.runs && c in s.runs[r].parts && c in s.runs[r].config.specs
  {
    var run := s.runs[r];
    var part := run.parts[c];
    && Equipped(s.executors, run.config.specs[c], DeployJob)
    && (run.body.operation == Operation.Deploy ==> Equipped(s.executors, run.config.specs[c], BuildJob))
    && (part.status == PartSucceeded ==> Deployed(s.jobs, r, c))
    && (part.status == PartFailed || part.status == Blocked ==> NothingDelivered(s.jobs, r, c, run.status))
    && (part.status == Blocked ==> exists x :: x in InRun(run, c) && Bad(run.parts[x].status))
    && (part.artifact.Some? ==> Provenance(s, r, c))
    && (run.body.operation == Rollback ==> part.artifact.Some?)
    && (part.previous.Some? ==>
          && SucceededIn(s, part.previous.value, run.config.profile, c)
          && part.previous.value != r && !Unfinished(s.runs[part.previous.value]))
  }

  /** A failed or blocked part's deploy job is absent, failed, or queued in a run that no longer hands out work. */
  ghost predicate NothingDelivered(jobs: map<JobId, Job>, r: RunId, c: ComponentId, status: RunStatus) {
    forall j :: j in jobs && Is(jobs[j], r, c, DeployJob)
      ==> jobs[j].status == JobFailed || (jobs[j].status == Queued && status != Publishing && status != Running)
  }

  /** An artifact comes from a succeeded build of the run it names; a rollback names a run that deployed it. */
  ghost predicate Provenance(s: State, r: RunId, c: ComponentId)
    requires r in s.runs && c in s.runs[r].parts && s.runs[r].parts[c].artifact.Some?
  {
    var run := s.runs[r];
    var part := run.parts[c];
    && part.release.Some?
    && var o := part.release.value;
    && Built(s.jobs, o, c, part.artifact.value)
    && (run.body.operation == Operation.Deploy <==> o == r)
    && (o != r ==> IsOrigin(s, o, run.config.profile, c, part.artifact.value))
  }

  /** Run o built artifact and its own component succeeded with it. */
  ghost predicate IsOrigin(s: State, o: RunId, profile: ProfileId, c: ComponentId, artifact: Digest) {
    && SucceededIn(s, o, profile, c)
    && s.runs[o].body.operation == Operation.Deploy
    && s.runs[o].parts[c].artifact == Some(artifact) && s.runs[o].parts[c].release == Some(o)
  }

  /** Open runs have different profiles and no destination binding in common. */
  ghost predicate Exclusive(runs: map<RunId, Run>) {
    forall p, q :: p in runs && q in runs && p != q && Unfinished(runs[p]) && Unfinished(runs[q])
      ==> Apart(runs[p], runs[q])
  }

  ghost predicate Apart(a: Run, b: Run) {
    && a.config.profile != b.config.profile
    && forall c, d :: c in a.parts && c in a.config.specs && d in b.parts && d in b.config.specs
         ==> Target(a.config.specs[c]) != Target(b.config.specs[d])
  }

  ghost predicate Precedes(a: Run, b: Run) {
    !Unfinished(a) && a.updated <= b.created
  }

  /** Runs of one profile never overlap in time. */
  ghost predicate OneAfterAnother(runs: map<RunId, Run>) {
    forall p, q :: p in runs && q in runs && p != q && runs[p].config.profile == runs[q].config.profile
      ==> Precedes(runs[p], runs[q]) || Precedes(runs[q], runs[p])
  }

  /** `delivered` names, for each component ever deployed, a run that comes after every other deployment of it. */
  ghost predicate DeliveredOk(s: State) {
    && (forall r, c: ComponentId :: r in s.runs && Deployed(s.jobs, r, c) ==> (s.runs[r].config.profile, c) in s.delivered)
    && (forall k :: k in s.delivered ==> LastDelivery(s, k.0, k.1, s.delivered[k]))
  }

  ghost predicate LastDelivery(s: State, profile: ProfileId, c: ComponentId, r: RunId) {
    && r in s.runs && s.runs[r].config.profile == profile && Deployed(s.jobs, r, c)
    && forall q :: q in s.runs && q != r && s.runs[q].config.profile == profile && Deployed(s.jobs, q, c)
         ==> Precedes(s.runs[q], s.runs[r])
  }

  /** No two active destination executors of one system hold overlapping roots. */
  ghost predicate RootsOwned(executors: map<ExecutorId, Executor>) {
    && UNASSIGNED !in executors
    && (forall e :: e in executors && executors[e].system.None? ==> executors[e].bindings == [])
    && forall d, e, system, a, b ::
         d in executors && e in executors && d != e && Owns(executors[d], system, a) && Owns(executors[e], system, b)
         ==> !Overlap(a, b)
  }

  lemma EmptyIsSound()
    ensures Inv(EMPTY)
  {
  }

  // ---------- Nothing is forgotten ----------

  ghost predicate JobLater(a: Job, b: Job) {
    && b == a.(status := b.status, output := b.output, error := b.error)
    && (a.output.Some? ==> b.output == a.output)
    && (a.status == JobSucceeded || a.status == JobFailed ==> b == a)
    && (a.status == JobUncertain ==> b.output == a.output && (b == a || (a.kind == BuildJob && b.status == JobFailed)))
    && (b.status == Queued ==> b == a)
  }

  ghost predicate PartLater(a: Part, b: Part) {
    && b.previous == a.previous
    && (a.artifact.Some? ==> b.artifact == a.artifact && b.release == a.release)
    && (a.status == PartSucceeded ==> b == a)
  }

  ghost predicate RunLater(a: Run, b: Run) {
    && b == a.(sourceHead := b.sourceHead, status := b.status, updated := b.updated, parts := b.parts,
               resolution := b.resolution)
    && a.updated <= b.updated
    && (a.sourceHead.Some? ==> b.sourceHead == a.sourceHead)
    && b.parts.Keys == a.parts.Keys
    && (forall c :: c in a.parts ==> PartLater(a.parts[c], b.parts[c]))
    && (!Unfinished(a) ==> b == a)
    && (b.status == Publishing ==> a.status == Publishing)
    && (b.status == Running ==> a.status == Publishing || a.status == Running)
  }

  ghost predicate ExecutorLater(a: Executor, b: Executor) {
    && b == a.(active := b.active, system := b.system, bindings := b.bindings)
    && (b.active ==> a.active)
    && (a.system.Some? ==> b.system == a.system && b.bindings == a.bindings)
  }

  ghost predicate JobsLater(a: map<JobId, Job>, b: map<JobId, Job>) {
    forall j :: j in a ==> j in b && JobLater(a[j], b[j])
  }

  ghost predicate RunsLater(a: map<RunId, Run>, b: map<RunId, Run>) {
    forall r :: r in a ==> r in b && RunLater(a[r], b[r])
  }

  ghost predicate SourcesLater(a: map<RunId, Source>, b: map<RunId, Source>) {
    forall r :: r in a ==> r in b && (a[r] != Waiting ==> b[r] == a[r])
  }

  ghost predicate ExecutorsLater(a: map<ExecutorId, Executor>, b: map<ExecutorId, Executor>) {
    forall e :: e in a ==> e in b && ExecutorLater(a[e], b[e])
  }

  /** Records are never deleted, and what they have settled never changes. */
  ghost predicate Later(s: State, t: State) {
    && s.clock <= t.clock
    && RunsLater(s.runs, t.runs)
    && JobsLater(s.jobs, t.jobs)
    && SourcesLater(s.sources, t.sources)
    && ExecutorsLater(s.executors, t.executors)
  }

  lemma LaterTransitive(s: State, t: State, u: State)
    requires Later(s, t) && Later(t, u)
    ensures Later(s, u)
  {
    forall r | r in s.runs ensures r in u.runs && RunLater(s.runs[r], u.runs[r]) {
      assert RunLater(s.runs[r], t.runs[r]) && RunLater(t.runs[r], u.runs[r]);
    }
    forall j | j in s.jobs ensures j in u.jobs && JobLater(s.jobs[j], u.jobs[j]) {
      assert JobLater(s.jobs[j], t.jobs[j]) && JobLater(t.jobs[j], u.jobs[j]);
    }
    forall e | e in s.executors ensures e in u.executors && ExecutorLater(s.executors[e], u.executors[e]) {
      assert ExecutorLater(s.executors[e], t.executors[e]) && ExecutorLater(t.executors[e], u.executors[e]);
    }
  }
}
