/** Every enabled write keeps the invariant and forgets nothing. */
module DeploymentSteps {
  import opened Basics
  import opened DeploymentModel
  import opened DeploymentInvariant

  // ---------- What survives when records only grow ----------

  lemma JobIsStays(a: map<JobId, Job>, b: map<JobId, Job>, r: RunId, c: ComponentId)
    requires JobsLater(a, b)
    ensures Deployed(a, r, c) ==> Deployed(b, r, c)
    ensures forall d: Digest :: Built(a, r, c, d) ==> Built(b, r, c, d)
  {
    if Deployed(a, r, c) {
      var j :| j in a && Is(a[j], r, c, DeployJob) && a[j].status == JobSucceeded;
      assert JobLater(a[j], b[j]);
    }
    forall d: Digest | Built(a, r, c, d) ensures Built(b, r, c, d) {
      var j :| j in a && Is(a[j], r, c, BuildJob) && a[j].status == JobSucceeded && a[j].output == Some(d);
      assert JobLater(a[j], b[j]);
    }
  }

  lemma JobOkStays(s: State, t: State, job: Job)
    requires JobOk(s, job)
    requires RunsLater(s.runs, t.runs) && JobsLater(s.jobs, t.jobs) && SourcesLater(s.sources, t.sources)
    requires HoldsTarget(job) ==> Unfinished(t.runs[job.run])
    ensures JobOk(t, job)
  {
    var r, c := job.run, job.component;
    assert RunLater(s.runs[r], t.runs[r]);
    assert PartLater(s.runs[r].parts[c], t.runs[r].parts[c]);
    assert InRun(s.runs[r], c) == InRun(t.runs[r], c);
    forall x | x in InRun(t.runs[r], c) ensures Deployed(t.jobs, r, x) {
      JobIsStays(s.jobs, t.jobs, r, x);
    }
  }

  lemma SucceededStays(s: State, t: State, q: RunId, profile: ProfileId, c: ComponentId)
    requires RunsLater(s.runs, t.runs) && SucceededIn(s, q, profile, c)
    ensures SucceededIn(t, q, profile, c) && t.runs[q].parts[c] == s.runs[q].parts[c]
  {
    assert RunLater(s.runs[q], t.runs[q]);
    assert PartLater(s.runs[q].parts[c], t.runs[q].parts[c]);
  }

  lemma EquippedStays(a: map<ExecutorId, Executor>, b: map<ExecutorId, Executor>, spec: Spec, kind: Kind)
    requires RootsOwned(a) && ExecutorsLater(a, b) && Equipped(a, spec, kind)
    ensures Equipped(b, spec, kind)
  {
    var e := if kind == BuildJob then spec.builder else spec.destination;
    assert ExecutorLater(a[e], b[e]);
  }

  lemma ProvenanceStays(s: State, t: State, r: RunId, c: ComponentId)
    requires RunsLater(s.runs, t.runs) && JobsLater(s.jobs, t.jobs)
    requires r in s.runs && c in s.runs[r].parts && s.runs[r].parts[c].artifact.Some? && Provenance(s, r, c)
    ensures c in t.runs[r].parts && t.runs[r].parts[c].artifact.Some? && Provenance(t, r, c)
  {
    assert RunLater(s.runs[r], t.runs[r]);
    assert PartLater(s.runs[r].parts[c], t.runs[r].parts[c]);
    var o := s.runs[r].parts[c].release.value;
    JobIsStays(s.jobs, t.jobs, o, c);
    if o != r {
      SucceededStays(s, t, o, s.runs[r].config.profile, c);
      assert RunLater(s.runs[o], t.runs[o]);
    }
  }

  /** A part of a run whose record did not change. */
  lemma PartOkStays(s: State, t: State, r: RunId, c: ComponentId)
    requires Later(s, t) && RootsOwned(s.executors)
    requires r in s.runs && c in s.runs[r].parts && c in s.runs[r].config.specs && PartOk(s, r, c)
    requires t.runs[r] == s.runs[r]
    requires var status := s.runs[r].parts[c].status;
             status == PartFailed || status == Blocked ==> NothingDelivered(t.jobs, r, c, t.runs[r].status)
    ensures PartOk(t, r, c)
  {
    var run := s.runs[r];
    var spec, part := run.config.specs[c], run.parts[c];
    EquippedStays(s.executors, t.executors, spec, DeployJob);
    if run.body.operation == Operation.Deploy {
      EquippedStays(s.executors, t.executors, spec, BuildJob);
    }
    JobIsStays(s.jobs, t.jobs, r, c);
    if part.artifact.Some? {
      ProvenanceStays(s, t, r, c);
    }
    if part.previous.Some? {
      SucceededStays(s, t, part.previous.value, run.config.profile, c);
      assert RunLater(s.runs[part.previous.value], t.runs[part.previous.value]);
    }
  }

  lemma RunOkStays(s: State, t: State, r: RunId)
    requires Later(s, t) && RootsOwned(s.executors)
    requires r in s.runs && RunOk(s, r) && t.runs[r] == s.runs[r]
    requires forall c :: c in s.runs[r].parts
               && (s.runs[r].parts[c].status == PartFailed || s.runs[r].parts[c].status == Blocked)
               ==> NothingDelivered(t.jobs, r, c, t.runs[r].status)
    ensures RunOk(t, r)
  {
    forall c | c in s.runs[r].parts ensures PartOk(t, r, c) {
      PartOkStays(s, t, r, c);
    }
  }

  // ---------- A write of one run record ----------

  /** t differs from s in the record of run r and the clock only. */
  ghost predicate OneRun(s: State, t: State, r: RunId) {
    && r in s.runs && r in t.runs
    && t == s.(runs := s.runs[r := t.runs[r]], clock := t.clock) && s.clock <= t.clock
    && RunLater(s.runs[r], t.runs[r])
  }

  lemma OneRunIsLater(s: State, t: State, r: RunId)
    requires OneRun(s, t, r)
    ensures Later(s, t)
  {
  }

  lemma ExclusiveStays(a: map<RunId, Run>, b: map<RunId, Run>)
    requires Exclusive(a) && RunsLater(a, b) && a.Keys == b.Keys
    ensures Exclusive(b)
  {
    forall p, q | p in b && q in b && p != q && Unfinished(b[p]) && Unfinished(b[q]) ensures Apart(b[p], b[q]) {
      assert RunLater(a[p], b[p]) && RunLater(a[q], b[q]);
      assert Apart(a[p], a[q]);
    }
  }

  lemma OrderStays(a: map<RunId, Run>, b: map<RunId, Run>)
    requires OneAfterAnother(a) && RunsLater(a, b) && a.Keys == b.Keys
    ensures OneAfterAnother(b)
  {
    forall p, q | p in b && q in b && p != q && b[p].config.profile == b[q].config.profile
      ensures Precedes(b[p], b[q]) || Precedes(b[q], b[p])
    {
      assert RunLater(a[p], b[p]) && RunLater(a[q], b[q]);
      assert Precedes(a[p], a[q]) || Precedes(a[q], a[p]);
    }
  }

  lemma DeliveredStays(s: State, t: State)
    requires DeliveredOk(s) && RunsLater(s.runs, t.runs) && s.runs.Keys == t.runs.Keys
    requires forall r, c: ComponentId :: Deployed(t.jobs, r, c) <==> Deployed(s.jobs, r, c)
    requires t.delivered == s.delivered
    ensures DeliveredOk(t)
  {
    forall r, c: ComponentId | r in t.runs && Deployed(t.jobs, r, c)
      ensures (t.runs[r].config.profile, c) in t.delivered
    {
      assert RunLater(s.runs[r], t.runs[r]);
    }
    forall k | k in t.delivered ensures LastDelivery(t, k.0, k.1, t.delivered[k]) {
      var r := s.delivered[k];
      assert LastDelivery(s, k.0, k.1, r);
      assert RunLater(s.runs[r], t.runs[r]);
      forall q | q in t.runs && q != r && t.runs[q].config.profile == k.0 && Deployed(t.jobs, q, k.1)
        ensures Precedes(t.runs[q], t.runs[r])
      {
        assert RunLater(s.runs[q], t.runs[q]);
      }
    }
  }

  lemma OneRunJobs(s: State, t: State, r: RunId)
    requires OneRun(s, t, r) && AllJobsOk(s)
    requires forall j :: j in s.jobs && s.jobs[j].run == r && HoldsTarget(s.jobs[j]) ==> Unfinished(t.runs[r])
    ensures AllJobsOk(t)
  {
    OneRunIsLater(s, t, r);
    forall j | j in t.jobs ensures JobOk(t, t.jobs[j]) {
      assert JobOk(s, s.jobs[j]);
      JobOkStays(s, t, s.jobs[j]);
    }
  }

  lemma OtherRunStaysOk(s: State, t: State, r: RunId, q: RunId)
    requires OneRun(s, t, r) && RootsOwned(s.executors) && q in s.runs && q != r && RunOk(s, q)
    ensures q in t.runs && RunOk(t, q)
  {
    hide RootsOwned, ValidConfig, Provenance, Equipped, RunLater;
    OneRunIsLater(s, t, r);
    assert forall c :: c in s.runs[q].parts ==> PartOk(s, q, c);
    RunOkStays(s, t, q);
  }

  lemma OneRunRuns(s: State, t: State, r: RunId)
    requires OneRun(s, t, r) && RootsOwned(s.executors) && RunOk(t, r)
    requires AllRunsOk(s)
    ensures AllRunsOk(t)
  {
    hide RootsOwned, RunOk;
    forall q | q in t.runs && q != r ensures RunOk(t, q) {
      OtherRunStaysOk(s, t, r, q);
    }
  }

  lemma RunWriteKeeps(s: State, t: State, r: RunId)
    requires Inv(s) && OneRun(s, t, r) && RunOk(t, r)
    requires forall j :: j in s.jobs && s.jobs[j].run == r && HoldsTarget(s.jobs[j]) ==> Unfinished(t.runs[r])
    ensures Inv(t) && Later(s, t)
  {
    hide AllRunsOk, AllJobsOk, RunOk, Exclusive, OneAfterAnother, DeliveredOk, RootsOwned, RunLater;
    OneRunIsLater(s, t, r);
    OneRunJobs(s, t, r);
    OneRunRuns(s, t, r);
    ExclusiveStays(s.runs, t.runs);
    OrderStays(s.runs, t.runs);
    DeliveredStays(s, t);
  }

  // ---------- A write of one job record ----------

  /** t differs from s in job record j, the clock and the history variable only. */
  ghost predicate OneJob(s: State, t: State, j: JobId) {
    && j in t.jobs
    && t == s.(jobs := s.jobs[j := t.jobs[j]], clock := t.clock, delivered := t.delivered) && s.clock <= t.clock
    && (j in s.jobs ==> JobLater(s.jobs[j], t.jobs[j]))
  }

  ghost predicate PartStillQuiet(t: State, job: Job) {
    && job.run in t.runs && job.component in t.runs[job.run].parts
    && var status := t.runs[job.run].parts[job.component].status;
    && (status == PartFailed || status == Blocked
        ==> NothingDelivered(t.jobs, job.run, job.component, t.runs[job.run].status))
  }

  lemma OneJobIsLater(s: State, t: State, j: JobId)
    requires OneJob(s, t, j)
    ensures Later(s, t)
  {
  }

  lemma OneJobJobs(s: State, t: State, j: JobId)
    requires OneJob(s, t, j) && AllJobsOk(s) && JobOk(t, t.jobs[j])
    ensures AllJobsOk(t)
  {
    OneJobIsLater(s, t, j);
    forall i | i in t.jobs ensures JobOk(t, t.jobs[i]) {
      if i != j {
        assert JobOk(s, s.jobs[i]);
        JobOkStays(s, t, s.jobs[i]);
      }
    }
  }

  lemma QuietStays(s: State, t: State, j: JobId, q: RunId, c: ComponentId)
    requires OneJob(s, t, j) && PartStillQuiet(t, t.jobs[j])
    requires q in s.runs && c in s.runs[q].parts
    requires s.runs[q].parts[c].status == PartFailed || s.runs[q].parts[c].status == Blocked
    requires NothingDelivered(s.jobs, q, c, s.runs[q].status)
    ensures NothingDelivered(t.jobs, q, c, t.runs[q].status)
  {
  }

  lemma OneJobRuns(s: State, t: State, j: JobId)
    requires OneJob(s, t, j) && RootsOwned(s.executors) && PartStillQuiet(t, t.jobs[j]) && AllRunsOk(s)
    ensures AllRunsOk(t)
  {
    hide RootsOwned, ValidConfig, Provenance, Later, Settled;
    OneJobIsLater(s, t, j);
    forall q | q in t.runs ensures RunOk(t, q) {
      assert RunOk(s, q);
      forall c | c in s.runs[q].parts
                 && (s.runs[q].parts[c].status == PartFailed || s.runs[q].parts[c].status == Blocked)
        ensures NothingDelivered(t.jobs, q, c, t.runs[q].status)
      {
        assert PartOk(s, q, c);
        QuietStays(s, t, j, q, c);
      }
      RunOkStays(s, t, q);
    }
  }

  lemma JobWriteKeeps(s: State, t: State, j: JobId)
    requires Inv(s) && OneJob(s, t, j)
    requires JobsUnique(t.jobs) && JobOk(t, t.jobs[j]) && PartStillQuiet(t, t.jobs[j]) && DeliveredOk(t)
    ensures Inv(t) && Later(s, t)
  {
    hide AllRunsOk, AllJobsOk, JobOk, Exclusive, OneAfterAnother, DeliveredOk, RootsOwned, JobLater, Later;
    OneJobIsLater(s, t, j);
    OneJobJobs(s, t, j);
    OneJobRuns(s, t, j);
  }

  lemma SameDeliveries(s: State, t: State, j: JobId)
    requires OneJob(s, t, j) && DeliveredOk(s) && t.delivered == s.delivered
    requires t.jobs[j].kind == DeployJob ==> t.jobs[j].status != JobSucceeded
    requires j in s.jobs && s.jobs[j].kind == DeployJob ==> s.jobs[j].status != JobSucceeded
    ensures DeliveredOk(t)
  {
    hide DeliveredOk;
    OneJobIsLater(s, t, j);
    forall r, c: ComponentId ensures Deployed(t.jobs, r, c) <==> Deployed(s.jobs, r, c) {
      JobIsStays(s.jobs, t.jobs, r, c);
    }
    DeliveredStays(s, t);
  }

  lemma PartOf(s: State, r: RunId, c: ComponentId)
    requires AllRunsOk(s) && r in s.runs && c in s.runs[r].parts
    ensures RunOk(s, r) && c in s.runs[r].config.specs && PartOk(s, r, c)
  {
  }

  lemma AddJobKeeps(s: State, a: Action, now: Time)
    requires Inv(s) && Enabled(s, a, now) && a.AddJob?
    ensures Inv(Effect(s, a, now)) && Later(s, Effect(s, a, now))
  {
    hide AllRunsOk, AllJobsOk, RunOk, Exclusive, OneAfterAnother, DeliveredOk, RootsOwned, Later;
    var t := Effect(s, a, now);
    var job := a.job;
    PartOf(s, job.run, job.component);
    assert OneJob(s, t, a.j);
    assert JobOk(t, job) by {
      forall x | x in InRun(s.runs[job.run], job.component) ensures Deployed(t.jobs, job.run, x) {
        JobIsStays(s.jobs, t.jobs, job.run, x);
      }
    }
    SameDeliveries(s, t, a.j);
    JobWriteKeeps(s, t, a.j);
  }

  /** Claiming, uploading, closing, and every completion but a successful deployment. */
  lemma JobChangeKeeps(s: State, a: Action, now: Time, j: JobId)
    requires Inv(s) && Enabled(s, a, now)
    requires (a.ClaimJob? || a.UploadOutput? || a.CloseJob? || a.CompleteJob?) && j == a.j
    requires a.CompleteJob? ==> s.jobs[j].kind == BuildJob || a.status != JobSucceeded
    ensures Inv(Effect(s, a, now)) && Later(s, Effect(s, a, now))
  {
    hide AllRunsOk, AllJobsOk, Exclusive, OneAfterAnother, DeliveredOk, RootsOwned, Later, PartStillQuiet;
    hide PartOk, Provenance, ValidConfig, Settled, NothingDelivered;
    var t := Effect(s, a, now);
    JobOf(s, j);
    var job := s.jobs[j];
    PartOf(s, job.run, job.component);
    assert OneJob(s, t, j);
    OneJobIsLater(s, t, j);
    JobsUniqueStays(s.jobs, t.jobs, j);
    ChangedJobOk(s, t, j);
    QuietAfterChange(s, t, j);
    SameDeliveries(s, t, j);
    JobWriteKeeps(s, t, j);
  }

  lemma JobOf(s: State, j: JobId)
    requires AllJobsOk(s) && j in s.jobs
    ensures JobOk(s, s.jobs[j])
  {
  }

  lemma ChangedJobOk(s: State, t: State, j: JobId)
    requires OneJob(s, t, j) && j in s.jobs && JobOk(s, s.jobs[j])
    requires HoldsTarget(t.jobs[j]) ==> Unfinished(s.runs[s.jobs[j].run])
    requires t.jobs[j].kind == BuildJob ==>
               && (s.runs[s.jobs[j].run].status == Publishing ==> t.jobs[j].status == Queued)
               && (t.jobs[j].status != Queued ==> s.runs[s.jobs[j].run].sourceHead == Some(t.jobs[j].sourceHead))
               && (t.jobs[j].status == JobSucceeded ==> t.jobs[j].output.Some?)
    ensures JobOk(t, t.jobs[j])
  {
    var job := s.jobs[j];
    OneJobIsLater(s, t, j);
    forall x | x in InRun(s.runs[job.run], job.component) ensures Deployed(t.jobs, job.run, x) {
      JobIsStays(s.jobs, t.jobs, job.run, x);
    }
  }

  lemma JobsUniqueStays(a: map<JobId, Job>, b: map<JobId, Job>, j: JobId)
    requires JobsUnique(a) && j in a && j in b && b == a[j := b[j]] && JobLater(a[j], b[j])
    ensures JobsUnique(b)
  {
  }

  lemma QuietAfterChange(s: State, t: State, j: JobId)
    requires OneJob(s, t, j) && j in s.jobs && JobsUnique(s.jobs)
    requires var r, c := s.jobs[j].run, s.jobs[j].component;
             r in s.runs && c in s.runs[r].parts && c in s.runs[r].config.specs && PartOk(s, r, c)
    requires s.jobs[j].kind == DeployJob && t.jobs[j] != s.jobs[j]
             ==> s.jobs[j].status == Working || (s.jobs[j].status == Queued && s.runs[s.jobs[j].run].status == Running)
    ensures PartStillQuiet(t, t.jobs[j])
  {
  }

  /** The first time a destination reports success, its run becomes the last delivery of the component. */
  lemma DeliveryKeeps(s: State, a: Action, now: Time, j: JobId)
    requires Inv(s) && Enabled(s, a, now) && a.CompleteJob? && j == a.j
    requires s.jobs[j].kind == DeployJob && a.status == JobSucceeded
    ensures Inv(Effect(s, a, now)) && Later(s, Effect(s, a, now))
  {
    hide AllRunsOk, AllJobsOk, Exclusive, OneAfterAnother, DeliveredOk, RootsOwned, Later, PartStillQuiet;
    hide PartOk, Provenance, ValidConfig, Settled, NothingDelivered;
    var t := Effect(s, a, now);
    JobOf(s, j);
    var job := s.jobs[j];
    PartOf(s, job.run, job.component);
    assert OneJob(s, t, j);
    OneJobIsLater(s, t, j);
    JobsUniqueStays(s.jobs, t.jobs, j);
    ChangedJobOk(s, t, j);
    QuietAfterChange(s, t, j);
    NewDelivery(s, t, j);
    JobWriteKeeps(s, t, j);
  }

  lemma NewDelivery(s: State, t: State, j: JobId)
    requires OneJob(s, t, j) && j in s.jobs && DeliveredOk(s) && OneAfterAnother(s.runs)
    requires s.jobs[j].kind == DeployJob && t.jobs[j].status == JobSucceeded
    requires var job := s.jobs[j];
             job.run in s.runs && Unfinished(s.runs[job.run]) && job.profile == s.runs[job.run].config.profile
             && t.delivered == s.delivered[(job.profile, job.component) := job.run]
    ensures DeliveredOk(t)
  {
    var job := s.jobs[j];
    var mine := (job.profile, job.component);
    forall r, c: ComponentId ensures Deployed(t.jobs, r, c) <==> Deployed(s.jobs, r, c) || (r == job.run && c == job.component) {
      if Deployed(s.jobs, r, c) {
        OneJobIsLater(s, t, j);
        JobIsStays(s.jobs, t.jobs, r, c);
      }
      assert Is(t.jobs[j], job.run, job.component, DeployJob);
    }
    forall k | k in t.delivered ensures LastDelivery(t, k.0, k.1, t.delivered[k]) {
      if k == mine {
        forall q | q in s.runs && q != job.run && s.runs[q].config.profile == k.0
          ensures Precedes(s.runs[q], s.runs[job.run])
        {
        }
      } else {
        assert LastDelivery(s, k.0, k.1, s.delivered[k]);
      }
    }
  }

  // ---------- Passes, expiry and closing ----------

  lemma SaveUnpublishedKeeps(s: State, a: Action, now: Time)
    requires Inv(s) && Enabled(s, a, now) && a.SaveUnpublished?
    ensures Inv(Effect(s, a, now)) && Later(s, Effect(s, a, now))
  {
    hide AllRunsOk, AllJobsOk, Exclusive, OneAfterAnother, DeliveredOk, RootsOwned, Later;
    var t := Effect(s, a, now);
    RunOf(s, a.r);
    NoDeployJobsYet(s, a.r);
    AllFailedOk(s, t, a.r, a.error);
    RunWriteKeeps(s, t, a.r);
  }

  lemma SaveWaitingKeeps(s: State, a: Action, now: Time)
    requires Inv(s) && Enabled(s, a, now) && a.SaveWaiting?
    ensures Inv(Effect(s, a, now)) && Later(s, Effect(s, a, now))
  {
    hide AllRunsOk, AllJobsOk, Exclusive, OneAfterAnother, DeliveredOk, RootsOwned, Later, ValidConfig;
    var t := Effect(s, a, now);
    RunOf(s, a.r);
    forall c | c in t.runs[a.r].parts ensures PartOk(t, a.r, c) {
      PartChangedOk(s, t, a.r, c);
    }
    RunWriteKeeps(s, t, a.r);
  }

  lemma RunOf(s: State, r: RunId)
    requires AllRunsOk(s) && r in s.runs
    ensures RunOk(s, r)
  {
  }

  /** Before its source is published a run has at most queued builds. */
  lemma NoDeployJobsYet(s: State, r: RunId)
    requires AllJobsOk(s) && r in s.runs && s.runs[r].status == Publishing
    ensures forall j :: j in s.jobs && s.jobs[j].run == r ==> s.jobs[j].kind == BuildJob && s.jobs[j].status == Queued
  {
  }

  /** A part of the one run whose record is rewritten. */
  lemma PartChangedOk(s: State, t: State, r: RunId, c: ComponentId)
    requires OneRun(s, t, r) && c in s.runs[r].parts && c in s.runs[r].config.specs && PartOk(s, r, c)
    requires var x, y := s.runs[r].parts[c], t.runs[r].parts[c];
             && (y.status == PartSucceeded ==> Deployed(s.jobs, r, c))
             && (y.status == PartFailed || y.status == Blocked ==> NothingDelivered(s.jobs, r, c, t.runs[r].status))
             && (y.status == Blocked ==> exists d :: d in InRun(s.runs[r], c) && Bad(t.runs[r].parts[d].status))
             && (x.artifact.None? && y.artifact.Some? ==> Provenance(t, r, c))
    ensures PartOk(t, r, c)
  {
    hide ValidConfig, NothingDelivered;
    OneRunIsLater(s, t, r);
    var x := s.runs[r].parts[c];
    if x.artifact.Some? {
      ProvenanceStays(s, t, r, c);
    }
    assert InRun(s.runs[r], c) == InRun(t.runs[r], c);
    if x.previous.Some? {
      SucceededStays(s, t, x.previous.value, s.runs[r].config.profile, c);
    }
  }

  /** Failing every part is sound while no deploy job exists. */
  lemma AllFailedOk(s: State, t: State, r: RunId, error: ErrorCode)
    requires r in s.runs && r in t.runs && RunOk(s, r) && Unfinished(s.runs[r])
    requires t == s.(runs := s.runs[r := t.runs[r]], clock := t.clock) && s.clock <= t.clock
    requires t.runs[r] == s.runs[r].(status := RunFailed, updated := t.clock,
                                     parts := AllFailed(s.runs[r].parts, error), resolution := t.runs[r].resolution)
    requires forall j :: j in s.jobs && s.jobs[j].run == r ==> s.jobs[j].kind == BuildJob
    ensures OneRun(s, t, r) && RunOk(t, r)
  {
    hide ValidConfig, PartOk, Equipped;
    forall c | c in s.runs[r].parts ensures s.runs[r].parts[c].status != PartSucceeded {
      NotSucceeded(s, r, c);
    }
    assert OneRun(s, t, r);
    forall c | c in t.runs[r].parts ensures PartOk(t, r, c) {
      PartChangedOk(s, t, r, c);
    }
  }

  lemma NotSucceeded(s: State, r: RunId, c: ComponentId)
    requires r in s.runs && c in s.runs[r].parts && c in s.runs[r].config.specs && PartOk(s, r, c)
    requires forall j :: j in s.jobs && s.jobs[j].run == r ==> s.jobs[j].kind == BuildJob
    ensures s.runs[r].parts[c].status != PartSucceeded
  {
  }

  lemma CloseRunKeeps(s: State, a: Action, now: Time)
    requires Inv(s) && Enabled(s, a, now) && a.CloseRun?
    ensures Inv(Effect(s, a, now)) && Later(s, Effect(s, a, now))
  {
    hide AllRunsOk, AllJobsOk, Exclusive, OneAfterAnother, DeliveredOk, RootsOwned, Later;
    var t := Effect(s, a, now);
    RunOf(s, a.r);
    AllFailedOk(s, t, a.r, a.error);
    RunWriteKeeps(s, t, a.r);
  }

  lemma SaveExpiredKeeps(s: State, a: Action, now: Time)
    requires Inv(s) && Enabled(s, a, now) && a.SaveExpired?
    ensures Inv(Effect(s, a, now)) && Later(s, Effect(s, a, now))
  {
    hide AllRunsOk, AllJobsOk, Exclusive, OneAfterAnother, DeliveredOk, RootsOwned, Later;
    var t := Effect(s, a, now);
    RunOf(s, a.r);
    ExpiredOk(s, t, a.r, a.error);
    forall j | j in s.jobs && s.jobs[j].run == a.r && HoldsTarget(s.jobs[j]) ensures Unfinished(t.runs[a.r]) {
      JobOf(s, j);
      ExpiredKeepsTargets(s, a.r, now, a.error, j);
    }
    RunWriteKeeps(s, t, a.r);
  }

  lemma ExpiredOk(s: State, t: State, r: RunId, error: ErrorCode)
    requires JobsUnique(s.jobs)
    requires r in s.runs && RunOk(s, r) && (s.runs[r].status == Publishing || s.runs[r].status == Running)
    requires s.clock <= t.clock
    requires t == s.(runs := s.runs[r := Expired(s.jobs, r, s.runs[r], t.clock, error)], clock := t.clock)
    ensures OneRun(s, t, r) && RunOk(t, r)
  {
    hide ValidConfig, PartOk, JobsUnique, ExpiredPart;
    var run := s.runs[r];
    ExpiredIsLater(s.jobs, r, run, t.clock, error);
    forall c | c in run.parts ensures PartOk(t, r, c) {
      ExpiredPartOk(s, t, r, c, error);
    }
  }

  lemma ExpiredIsLater(jobs: map<JobId, Job>, r: RunId, run: Run, now: Time, error: ErrorCode)
    requires Unfinished(run) && run.updated <= now && run.status != RunUncertain
    ensures var b := Expired(jobs, r, run, now, error);
            && RunLater(run, b)
            && b.status != Publishing && b.status != Running
            && (!Unfinished(b) ==> Settled(b.parts))
  {
    hide ExpiredPart, PartLater;
    ExpiredPartsAreLater(jobs, r, run, now, error);
  }

  lemma ExpiredPartsAreLater(jobs: map<JobId, Job>, r: RunId, run: Run, now: Time, error: ErrorCode)
    ensures var b := Expired(jobs, r, run, now, error);
            forall c :: c in run.parts ==> PartLater(run.parts[c], b.parts[c]) && Terminal(b.parts[c].status)
  {
  }

  lemma ExpiredPartOk(s: State, t: State, r: RunId, c: ComponentId, error: ErrorCode)
    requires JobsUnique(s.jobs) && OneRun(s, t, r) && c in s.runs[r].parts && c in s.runs[r].config.specs
    requires PartOk(s, r, c) && (s.runs[r].status == Publishing || s.runs[r].status == Running)
    requires !Any(s.runs[r].parts, PartUncertain)
    requires t.runs[r] == Expired(s.jobs, r, s.runs[r], t.clock, error)
    ensures PartOk(t, r, c)
  {
    hide ValidConfig, Provenance, NothingDelivered, RunLater, JobsUnique, Equipped;
    var run := s.runs[r];
    NothingDeliveredStays(s.jobs, r, c, run.status, t.runs[r].status);
    ExpiredPartQuiet(s.jobs, r, c, run.parts[c], error);
    NothingDeliveredStays(s.jobs, r, c, RunFailed, t.runs[r].status);
    if run.parts[c].status == Blocked {
      var d :| d in InRun(run, c) && Bad(run.parts[d].status);
      assert Bad(t.runs[r].parts[d].status);
    }
    PartChangedOk(s, t, r, c);
  }

  lemma NothingDeliveredStays(jobs: map<JobId, Job>, r: RunId, c: ComponentId, a: RunStatus, b: RunStatus)
    requires a == Publishing || a == Running || (b != Publishing && b != Running)
    ensures NothingDelivered(jobs, r, c, a) ==> NothingDelivered(jobs, r, c, b)
    ensures NothingDelivered(jobs, r, c, a) && (a == Publishing || a == Running) ==> NothingDelivered(jobs, r, c, Running)
  {
  }

  lemma ExpiredPartQuiet(jobs: map<JobId, Job>, r: RunId, c: ComponentId, part: Part, error: ErrorCode)
    requires JobsUnique(jobs)
    requires part.status == PartFailed || part.status == Blocked ==> NothingDelivered(jobs, r, c, Running)
    ensures var y := ExpiredPart(jobs, r, c, part, error);
            y.status == PartFailed || y.status == Blocked ==> NothingDelivered(jobs, r, c, RunFailed)
  {
  }

  /** Uncertain deploy work keeps an expired run open. */
  lemma ExpiredKeepsTargets(s: State, r: RunId, now: Time, error: ErrorCode, j: JobId)
    requires JobsUnique(s.jobs) && j in s.jobs && JobOk(s, s.jobs[j]) && HoldsTarget(s.jobs[j])
    requires s.jobs[j].run == r && r in s.runs && RunOk(s, r)
    requires s.runs[r].status == Publishing || s.runs[r].status == Running
    ensures Expired(s.jobs, r, s.runs[r], now, error).status == RunUncertain
  {
    hide ValidConfig, Provenance, Equipped;
    var c := s.jobs[j].component;
    assert PartOk(s, r, c);
    assert ExpiredPart(s.jobs, r, c, s.runs[r].parts[c], error).status == PartUncertain by {
      assert Is(s.jobs[j], r, c, DeployJob);
    }
    var parts := Expired(s.jobs, r, s.runs[r], now, error).parts;
    assert c in parts && parts[c].status == PartUncertain;
  }

  // ---------- Saving a pass ----------

  ghost predicate Passing(s: State, r: RunId, b: Run) {
    && JobsUnique(s.jobs) && AllJobsOk(s)
    && r in s.runs && RunOk(s, r) && (s.runs[r].status == Publishing || s.runs[r].status == Running)
    && b.parts.Keys == s.runs[r].parts.Keys
    && forall c :: c in b.parts ==> c in s.runs[r].config.specs && PartMoves(s.jobs, r, s.runs[r], b, c)
  }

  /** The job a part is waiting for decides: if it went wrong, the destination has received nothing. */
  lemma WrongJob(s: State, r: RunId, c: ComponentId, status: JobStatus)
    requires JobsUnique(s.jobs) && AllJobsOk(s) && r in s.runs && c in s.runs[r].parts
    requires status != JobSucceeded && JobIs(s.jobs, r, c, NextKind(s.runs[r].parts[c]), status)
    ensures forall j :: j in s.jobs && Is(s.jobs[j], r, c, DeployJob) ==> s.jobs[j].status == status
  {
    forall j | j in s.jobs && Is(s.jobs[j], r, c, DeployJob) ensures s.jobs[j].status == status {
      assert JobOk(s, s.jobs[j]);
    }
  }

  lemma DeployJobNeedsDependencies(s: State, r: RunId, c: ComponentId, d: ComponentId)
    requires AllJobsOk(s) && r in s.runs && c in s.runs[r].config.specs && d in InRun(s.runs[r], c)
    requires HasJob(s.jobs, r, c, DeployJob)
    ensures Deployed(s.jobs, r, d)
  {
    var j :| j in s.jobs && Is(s.jobs[j], r, c, DeployJob);
    assert JobOk(s, s.jobs[j]);
  }

  /** After a pass, a part that went wrong was never delivered: by induction along the dependency order. */
  lemma {:induction false} BadNotDeployed(s: State, r: RunId, b: Run, i: nat)
    requires Passing(s, r, b)
    requires i < |s.runs[r].config.order| && s.runs[r].config.order[i] in b.parts
    requires Bad(b.parts[s.runs[r].config.order[i]].status)
    ensures !Deployed(s.jobs, r, s.runs[r].config.order[i])
    decreases i
  {
    hide AllJobsOk, JobsUnique, Provenance, Equipped, Reports;
    var a := s.runs[r];
    var c := a.config.order[i];
    assert PartOk(s, r, c) && PartMoves(s.jobs, r, a, b, c);
    var x, y := a.parts[c], b.parts[c];
    if y == x {
    } else if y.status == Blocked {
      var d :| d in InRun(a, c) && d in b.parts && Bad(b.parts[d].status);
      assert d in a.config.order[..i];
      var k :| 0 <= k < i && a.config.order[k] == d;
      BadNotDeployed(s, r, b, k);
      if Deployed(s.jobs, r, c) {
        DeployJobNeedsDependencies(s, r, c, d);
      }
    } else {
      WrongJob(s, r, c, if y.status == PartFailed then JobFailed else JobUncertain);
    }
  }

  /** An artifact that a pass takes over was built in this very run. */
  lemma TakenArtifactHasProvenance(s: State, t: State, r: RunId, c: ComponentId)
    requires OneRun(s, t, r) && Passing(s, r, t.runs[r]) && c in t.runs[r].parts
    requires s.runs[r].parts[c].artifact.None? && t.runs[r].parts[c].artifact.Some?
    ensures Provenance(t, r, c)
  {
    hide AllJobsOk, JobsUnique, Equipped, NothingDelivered, ValidConfig, Reports, JobIs;
    assert PartOk(s, r, c) && PartMoves(s.jobs, r, s.runs[r], t.runs[r], c);
  }

  lemma PassPartOk(s: State, t: State, r: RunId, c: ComponentId)
    requires OneRun(s, t, r) && Passing(s, r, t.runs[r]) && c in t.runs[r].parts
    ensures PartOk(t, r, c)
  {
    hide AllJobsOk, JobsUnique, Equipped, NothingDelivered, ValidConfig, Reports, Provenance, RunLater;
    var a, b := s.runs[r], t.runs[r];
    assert PartOk(s, r, c) && PartMoves(s.jobs, r, a, b, c);
    if b.parts[c].status == PartFailed || b.parts[c].status == Blocked {
      PassQuiet(s, r, b, c);
    }
    if a.parts[c].status == Blocked {
      var d :| d in InRun(a, c) && Bad(a.parts[d].status);
      assert PartMoves(s.jobs, r, a, b, d);
    }
    if a.parts[c].artifact.None? && b.parts[c].artifact.Some? {
      TakenArtifactHasProvenance(s, t, r, c);
    }
    PartChangedOk(s, t, r, c);
  }

  lemma PassQuiet(s: State, r: RunId, b: Run, c: ComponentId)
    requires Passing(s, r, b) && c in b.parts
    requires b.parts[c].status == PartFailed || b.parts[c].status == Blocked
    ensures NothingDelivered(s.jobs, r, c, b.status)
  {
    hide AllJobsOk, JobsUnique, Equipped, Provenance, ValidConfig, Reports;
    var a := s.runs[r];
    assert PartOk(s, r, c) && PartMoves(s.jobs, r, a, b, c);
    if b.parts[c] == a.parts[c] {
      NothingDeliveredStays(s.jobs, r, c, a.status, b.status);
    } else if b.parts[c].status == PartFailed {
      WrongJob(s, r, c, JobFailed);
    } else {
      BlockedDeliversNothing(s, r, b, c);
    }
  }

  lemma BlockedDeliversNothing(s: State, r: RunId, b: Run, c: ComponentId)
    requires Passing(s, r, b) && c in b.parts
    requires exists d :: d in InRun(s.runs[r], c) && d in b.parts && Bad(b.parts[d].status)
    ensures NothingDelivered(s.jobs, r, c, b.status)
  {
    var a := s.runs[r];
    var d :| d in InRun(a, c) && d in b.parts && Bad(b.parts[d].status);
    assert d in a.config.order;
    var k :| 0 <= k < |a.config.order| && a.config.order[k] == d;
    BadNotDeployed(s, r, b, k);
    if HasJob(s.jobs, r, c, DeployJob) {
      DeployJobNeedsDependencies(s, r, c, d);
    }
  }

  lemma PassOk(s: State, t: State, r: RunId)
    requires OneRun(s, t, r) && Passing(s, r, t.runs[r]) && MaySavePass(s, r, t.runs[r], t.clock)
    ensures RunOk(t, r)
  {
    hide ValidConfig, PartOk, AllJobsOk, JobsUnique, PartMoves, RunLater;
    forall c | c in t.runs[r].parts ensures PartOk(t, r, c) {
      PassPartOk(s, t, r, c);
    }
  }

  /** A run whose parts are all settled holds no destination. */
  lemma SettledReleasesTargets(t: State, r: RunId, j: JobId)
    requires JobsUnique(t.jobs) && j in t.jobs && t.jobs[j].run == r && r in t.runs && RunOk(t, r)
    requires t.jobs[j].component in t.runs[r].parts && Settled(t.runs[r].parts)
    ensures !HoldsTarget(t.jobs[j])
  {
    assert PartOk(t, r, t.jobs[j].component);
  }

  lemma PassIsLater(s: State, t: State, r: RunId)
    requires r in s.runs && r in t.runs && s.clock <= t.clock && s.runs[r].updated <= s.clock
    requires s.runs[r].sourceHead.Some? ==> r in s.sources && s.sources[r] == Published(s.runs[r].sourceHead.value)
    requires MaySavePass(s, r, t.runs[r], t.clock)
    requires t == s.(runs := s.runs[r := t.runs[r]], clock := t.clock)
    ensures OneRun(s, t, r)
  {
    forall c | c in s.runs[r].parts ensures PartLater(s.runs[r].parts[c], t.runs[r].parts[c]) {
      assert PartMoves(s.jobs, r, s.runs[r], t.runs[r], c);
    }
  }

  lemma SavePassKeeps(s: State, a: Action, now: Time)
    requires Inv(s) && Enabled(s, a, now) && a.SavePass?
    ensures Inv(Effect(s, a, now)) && Later(s, Effect(s, a, now))
  {
    hide AllRunsOk, AllJobsOk, Exclusive, OneAfterAnother, DeliveredOk, RootsOwned, Later, JobsUnique, PartMoves;
    hide Settled, PartOk;
    var t := Effect(s, a, now);
    RunOf(s, a.r);
    PassIsLater(s, t, a.r);
    PassOk(s, t, a.r);
    forall j | j in s.jobs && s.jobs[j].run == a.r && HoldsTarget(s.jobs[j]) ensures Unfinished(t.runs[a.r]) {
      JobOf(s, j);
      if !Unfinished(t.runs[a.r]) {
        SettledReleasesTargets(t, a.r, j);
      }
    }
    RunWriteKeeps(s, t, a.r);
  }

  // ---------- A new run ----------

  ghost predicate Added(s: State, t: State, r: RunId) {
    && r !in s.runs && r in t.runs && s.clock <= t.clock
    && t == s.(runs := s.runs[r := t.runs[r]], clock := t.clock)
    && MayAddRun(s, r, t.runs[r], t.clock)
  }

  lemma AddedIsLater(s: State, t: State, r: RunId)
    requires Added(s, t, r)
    ensures Later(s, t)
  {
    hide MayAddRun;
  }

  lemma AddedJobs(s: State, t: State, r: RunId)
    requires Added(s, t, r) && AllJobsOk(s)
    ensures AllJobsOk(t)
    ensures forall j :: j in t.jobs ==> t.jobs[j].run != r
  {
    AddedIsLater(s, t, r);
    forall j | j in t.jobs ensures JobOk(t, t.jobs[j]) && t.jobs[j].run != r {
      assert JobOk(s, s.jobs[j]);
      JobOkStays(s, t, s.jobs[j]);
    }
  }

  lemma AddedRuns(s: State, t: State, r: RunId)
    requires Added(s, t, r) && AllRunsOk(s) && RootsOwned(s.executors) && RunOk(t, r)
    ensures AllRunsOk(t)
  {
    hide MayAddRun, ValidConfig, RootsOwned, Later;
    AddedIsLater(s, t, r);
    forall q | q in t.runs && q != r ensures RunOk(t, q) {
      assert RunOk(s, q);
      assert forall c :: c in s.runs[q].parts ==> PartOk(s, q, c);
      RunOkStays(s, t, q);
    }
  }

  /** A rolled-back part inherits the provenance of the release it returns to. */
  lemma InheritedProvenance(s: State, t: State, r: RunId, c: ComponentId)
    requires Added(s, t, r) && AllRunsOk(s)
    requires c in t.runs[r].parts && t.runs[r].body.operation == Rollback && NewPart(s, t.runs[r], c)
    ensures t.runs[r].parts[c].artifact.Some? && Provenance(t, r, c)
  {
    hide ValidConfig, Equipped, MayAddRun, AllRunsOk, NothingDelivered;
    var run := t.runs[r];
    var older := s.runs[run.parts[c].previous.value].parts[c].previous.value;
    PartOf(s, older, c);
    var o := s.runs[older].parts[c].release.value;
    AddedIsLater(s, t, r);
    SucceededStays(s, t, o, run.config.profile, c);
  }

  lemma AddedPart(s: State, t: State, r: RunId, c: ComponentId)
    requires Added(s, t, r) && AllRunsOk(s) && RootsOwned(s.executors) && c in t.runs[r].parts
    requires forall q :: q in s.runs && s.runs[q].config.profile == t.runs[r].config.profile ==> !Unfinished(s.runs[q])
    ensures PartOk(t, r, c)
  {
    hide ValidConfig, AllRunsOk, Provenance, RootsOwned, NothingDelivered;
    if t.runs[r].body.operation == Rollback {
      InheritedProvenance(s, t, r, c);
    }
  }

  lemma AddedOk(s: State, t: State, r: RunId)
    requires Added(s, t, r) && AllRunsOk(s) && RootsOwned(s.executors)
    requires forall q :: q in s.runs && s.runs[q].config.profile == t.runs[r].config.profile ==> !Unfinished(s.runs[q])
    ensures RunOk(t, r)
  {
    hide ValidConfig, AllRunsOk, PartOk, RootsOwned, Equipped, Busy;
    forall c | c in t.runs[r].parts ensures PartOk(t, r, c) {
      AddedPart(s, t, r, c);
    }
    assert forall c :: c in t.runs[r].parts ==> t.runs[r].parts[c].status == Pending;
  }

  lemma AddedExclusive(s: State, t: State, r: RunId)
    requires Added(s, t, r) && AllRunsOk(s) && Exclusive(s.runs) && OneAfterAnother(s.runs)
    ensures Exclusive(t.runs) && OneAfterAnother(t.runs)
    ensures forall q :: q in s.runs && s.runs[q].config.profile == t.runs[r].config.profile ==> !Unfinished(s.runs[q])
  {
    hide ValidConfig, PartOk, NewPart, Equipped, Settled, AllRunsOk;
    forall q | q in s.runs ensures !Busy(s.runs[q], t.runs[r].config, t.runs[r].parts.Keys) && s.runs[q].updated <= s.clock {
      RunOf(s, q);
    }
  }

  lemma AddedDeliveries(s: State, t: State, r: RunId)
    requires Added(s, t, r) && DeliveredOk(s) && forall j :: j in t.jobs ==> t.jobs[j].run != r
    ensures DeliveredOk(t)
  {
    hide MayAddRun, Precedes;
    assert forall c: ComponentId :: !Deployed(t.jobs, r, c);
    forall k | k in t.delivered ensures LastDelivery(t, k.0, k.1, t.delivered[k]) {
      assert LastDelivery(s, k.0, k.1, s.delivered[k]);
    }
  }

  lemma AddRunKeeps(s: State, a: Action, now: Time)
    requires Inv(s) && Enabled(s, a, now) && a.AddRun?
    ensures Inv(Effect(s, a, now)) && Later(s, Effect(s, a, now))
  {
    hide AllRunsOk, AllJobsOk, RunOk, Exclusive, OneAfterAnother, DeliveredOk, RootsOwned, Later, JobsUnique, NewPart;
    hide Busy, ValidConfig, Equipped;
    var t := Effect(s, a, now);
    assert Added(s, t, a.r);
    AddedIsLater(s, t, a.r);
    AddedJobs(s, t, a.r);
    AddedExclusive(s, t, a.r);
    AddedOk(s, t, a.r);
    AddedRuns(s, t, a.r);
    AddedDeliveries(s, t, a.r);
  }

  // ---------- Sources, executors and profiles ----------

  lemma OtherKeeps(s: State, a: Action, now: Time)
    requires Inv(s) && Enabled(s, a, now)
    requires a.Tick? || a.SourceReplies? || a.AddExecutor? || a.BindExecutor? || a.RevokeExecutor? || a.SaveProfile?
    ensures Inv(Effect(s, a, now)) && Later(s, Effect(s, a, now))
  {
    hide AllRunsOk, AllJobsOk, RunOk, Exclusive, OneAfterAnother, DeliveredOk, Later, JobsUnique, ValidConfig, MayBind, RootsOwned;
    var t := Effect(s, a, now);
    OtherIsLater(s, a, now);
    OtherRecords(s, t);
    OtherRoots(s, a, now);
  }

  lemma OtherIsLater(s: State, a: Action, now: Time)
    requires Enabled(s, a, now)
    requires a.Tick? || a.SourceReplies? || a.AddExecutor? || a.BindExecutor? || a.RevokeExecutor? || a.SaveProfile?
    ensures Later(s, Effect(s, a, now))
  {
    hide ValidConfig, MayBind;
  }

  lemma OtherRecords(s: State, t: State)
    requires AllJobsOk(s) && AllRunsOk(s) && DeliveredOk(s) && RootsOwned(s.executors)
    requires Later(s, t) && t.runs == s.runs && t.jobs == s.jobs && t.delivered == s.delivered
    ensures AllJobsOk(t) && AllRunsOk(t) && DeliveredOk(t)
  {
    hide Later, RootsOwned, DeliveredOk;
    forall j | j in t.jobs ensures JobOk(t, t.jobs[j]) {
      assert JobOk(s, s.jobs[j]);
      LaterParts(s, t);
      JobOkStays(s, t, s.jobs[j]);
    }
    forall q | q in t.runs ensures RunOk(t, q) {
      assert RunOk(s, q);
      assert forall c :: c in s.runs[q].parts ==> PartOk(s, q, c);
      RunOkStays(s, t, q);
    }
    SameRecords(s, t);
  }

  lemma LaterParts(s: State, t: State)
    requires Later(s, t)
    ensures RunsLater(s.runs, t.runs) && JobsLater(s.jobs, t.jobs) && SourcesLater(s.sources, t.sources)
    ensures s.clock <= t.clock && ExecutorsLater(s.executors, t.executors)
  {
  }

  lemma SameRecords(s: State, t: State)
    requires DeliveredOk(s) && t.runs == s.runs && t.jobs == s.jobs && t.delivered == s.delivered
    ensures DeliveredOk(t)
  {
    forall k | k in t.delivered ensures LastDelivery(t, k.0, k.1, t.delivered[k]) {
      assert LastDelivery(s, k.0, k.1, s.delivered[k]);
    }
  }

  lemma OverlapSymmetric(a: string, b: string)
    ensures Overlap(a, b) == Overlap(b, a)
  {
  }

  lemma OtherRoots(s: State, a: Action, now: Time)
    requires Enabled(s, a, now) && RootsOwned(s.executors)
    requires a.Tick? || a.SourceReplies? || a.AddExecutor? || a.BindExecutor? || a.RevokeExecutor? || a.SaveProfile?
    ensures RootsOwned(Effect(s, a, now).executors)
  {
    hide Overlap, ValidConfig;
    var x, y := s.executors, Effect(s, a, now).executors;
    forall d, e, system, p, q |
      d in y && e in y && d != e && Owns(y[d], system, p) && Owns(y[e], system, q)
      ensures !Overlap(p, q)
    {
      OverlapSymmetric(p, q);
    }
  }

  // ---------- Any step, any run ----------

  lemma StepKeeps(s: State, a: Action, now: Time)
    requires Inv(s) && Enabled(s, a, now)
    ensures Inv(Effect(s, a, now)) && Later(s, Effect(s, a, now))
  {
    hide Inv, Later;
    match a
    case AddRun(_, _) => AddRunKeeps(s, a, now);
    case AddJob(_, _) => AddJobKeeps(s, a, now);
    case SavePass(_, _) => SavePassKeeps(s, a, now);
    case SaveWaiting(_) => SaveWaitingKeeps(s, a, now);
    case SaveExpired(_, _) => SaveExpiredKeeps(s, a, now);
    case SaveUnpublished(_, _) => SaveUnpublishedKeeps(s, a, now);
    case CloseRun(_, _, _) => CloseRunKeeps(s, a, now);
    case CompleteJob(j, status, _) =>
      if s.jobs[j].kind == DeployJob && status == JobSucceeded {
        DeliveryKeeps(s, a, now, j);
      } else {
        JobChangeKeeps(s, a, now, j);
      }
    case ClaimJob(j) => JobChangeKeeps(s, a, now, j);
    case UploadOutput(j, _) => JobChangeKeeps(s, a, now, j);
    case CloseJob(j, _) => JobChangeKeeps(s, a, now, j);
    case _ => OtherKeeps(s, a, now);
  }
}
