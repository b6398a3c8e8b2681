/**
 One pass of the scheduler over a run, as a function of the records it starts
 from, and the proof that every record it writes is an enabled write.
 */
module DeploymentPass {
  import opened Basics
  import opened DeploymentModel
  import opened DeploymentInvariant
  import opened DeploymentSteps

  /** What a pass cannot compute: the exported source bundle and fresh random job ids. */
  datatype Env = Env(bundle: Digest, ids: map<ComponentId, JobId>)

  ghost predicate FreshIds(s: State, run: Run, env: Env) {
    && run.config.specs.Keys <= env.ids.Keys
    && (forall c :: c in env.ids ==> env.ids[c] !in s.jobs)
    && forall c, d :: c in env.ids && d in env.ids && c != d ==> env.ids[c] != env.ids[d]
  }

  /** The run as it stands in memory, and the jobs already written. */
  datatype Progress = Progress(run: Run, created: seq<(JobId, Job)>)

  ghost function With(jobs: map<JobId, Job>, created: seq<(JobId, Job)>): map<JobId, Job> {
    if created == [] then jobs
    else With(jobs, created[..|created| - 1])[created[|created| - 1].0 := created[|created| - 1].1]
  }

  ghost function TheJob(jobs: map<JobId, Job>, r: RunId, c: ComponentId, kind: Kind): (j: JobId)
    requires HasJob(jobs, r, c, kind)
    ensures j in jobs && Is(jobs[j], r, c, kind)
  {
    var j :| j in jobs && Is(jobs[j], r, c, kind);
    j
  }

  /** What a finished job makes of its part; an unfinished one leaves it alone. */
  function Absorb(part: Part, job: Job, r: RunId): Part {
    match job.status
    case JobSucceeded =>
      if job.kind == BuildJob
      then part.(artifact := job.output, release := Some(r), status := Pending)
      else part.(status := PartSucceeded)
    case JobFailed => part.(status := PartFailed, error := Some(ErrorOf(job, EXECUTION_FAILED)))
    case JobUncertain => part.(status := PartUncertain, error := Some(ErrorOf(job, EXECUTION_FAILED)))
    case _ => part
  }

  function Replace(run: Run, c: ComponentId, part: Part): Run {
    run.(parts := run.parts[c := part])
  }

  /** The commit a job is built from: the run's own, or for a rollback that of the run it returns to. */
  function HeadFor(runs: map<RunId, Run>, run: Run, part: Part): Option<Head> {
    if run.sourceHead.Some? then run.sourceHead
    else if part.release.Some? && part.release.value in runs then runs[part.release.value].sourceHead
    else None
  }

  function PreviousArtifact(runs: map<RunId, Run>, part: Part, c: ComponentId): Option<Digest> {
    if part.previous.Some? && part.previous.value in runs && c in runs[part.previous.value].parts
    then runs[part.previous.value].parts[c].artifact else None
  }

  function ExecutorFor(spec: Spec, kind: Kind): ExecutorId {
    if kind == DeployJob then spec.destination else spec.builder
  }

  /** The next job of a part; None for a missing executor, binding or commit. */
  function Prepare(executors: map<ExecutorId, Executor>, runs: map<RunId, Run>, r: RunId, run: Run, c: ComponentId,
                   now: Time, env: Env): Option<Job>
    requires c in run.parts && c in run.config.specs
  {
    var part, spec := run.parts[c], run.config.specs[c];
    var kind := NextKind(part);
    var e := ExecutorFor(spec, kind);
    var head := HeadFor(runs, run, part);
    if e !in executors || head.None? then None
    else
      var binding := PickBinding(executors[e].bindings, spec.recipe, if kind == DeployJob then Some(spec.binding) else None);
      if binding.None? then None
      else Some(Job(r, run.config.profile, c, e, kind, Queued, now, run.expires, binding.value.id, head.value,
                    if kind == DeployJob then part.artifact.value else env.bundle, None,
                    PreviousArtifact(runs, part, c), None))
  }

  predicate SomeBad(run: Run, deps: set<ComponentId>) {
    exists d :: d in deps && d in run.parts && Bad(run.parts[d].status)
  }

  predicate AllSucceeded(run: Run, deps: set<ComponentId>) {
    forall d :: d in deps && d in run.parts ==> run.parts[d].status == PartSucceeded
  }

  /** One turn of the loop over the components in dependency order. */
  ghost function Visit(s: State, r: RunId, p: Progress, c: ComponentId, now: Time, env: Env): Progress {
    if c !in p.run.parts || c !in p.run.config.specs || Terminal(p.run.parts[c].status) then p
    else
      var part, deps := p.run.parts[c], p.run.config.specs[c].deps;
      if SomeBad(p.run, deps)
      then p.(run := Replace(p.run, c, part.(status := Blocked, error := Some(DEPENDENCY_FAILED))))
      else if !AllSucceeded(p.run, deps) then p
      else if HasJob(s.jobs, r, c, NextKind(part))
      then p.(run := Replace(p.run, c, Absorb(part, s.jobs[TheJob(s.jobs, r, c, NextKind(part))], r)))
      else
        var job := Prepare(s.executors, s.runs, r, p.run, c, now, env);
        if job.None? || c !in env.ids then p
        else Progress(Replace(p.run, c, part.(status := if part.artifact.Some? then Deploying else Building)),
                      p.created + [(env.ids[c], job.value)])
  }

  ghost function PassOver(s: State, r: RunId, run: Run, n: nat, now: Time, env: Env): Progress
    requires n <= |run.config.order|
  {
    if n == 0 then Progress(run, [])
    else Visit(s, r, PassOver(s, r, run, n - 1, now, env), run.config.order[n - 1], now, env)
  }

  // ---------- A pass starts from a running run, or one whose source has just been published ----------

  ghost predicate Startable(s: State, r: RunId) {
    && r in s.runs
    && (s.runs[r].status == Running || (s.runs[r].status == Publishing && r in s.sources && s.sources[r].Published?))
  }

  ghost function Started(s: State, r: RunId): Run
    requires Startable(s, r)
  {
    if s.runs[r].status == Running then s.runs[r]
    else s.runs[r].(status := Running, sourceHead := Some(s.sources[r].head))
  }

  ghost function Pass(s: State, r: RunId, now: Time, env: Env): Progress
    requires Startable(s, r)
  {
    PassOver(s, r, Started(s, r), |s.runs[r].config.order|, now, env)
  }

  ghost function Saved(p: Progress, now: Time): Run {
    p.run.(status := AfterPass(p.run.parts), updated := now)
  }

  /** The records after a complete pass. */
  ghost function AfterPassState(s: State, r: RunId, now: Time, env: Env): State
    requires Startable(s, r)
  {
    var p := Pass(s, r, now, env);
    s.(jobs := With(s.jobs, p.created), runs := s.runs[r := Saved(p, now)], clock := now)
  }

  // ---------- Facts about the fold ----------

  /** p was reached from run by visiting the first n components of the order. */
  ghost predicate Reached(s: State, r: RunId, run: Run, p: Progress, n: nat)
    requires n <= |run.config.order|
  {
    && p.run == run.(parts := p.run.parts) && p.run.parts.Keys == run.parts.Keys
    && (forall c :: c in run.parts && c !in run.config.order[..n] ==> p.run.parts[c] == run.parts[c])
    && (forall c :: c in run.parts && c in run.config.specs ==> PartMoves(s.jobs, r, run, p.run, c))
  }

  lemma VisitTouchesOnePart(s: State, r: RunId, p: Progress, c: ComponentId, now: Time, env: Env)
    ensures var q := Visit(s, r, p, c, now, env);
            && q.run == p.run.(parts := q.run.parts) && q.run.parts.Keys == p.run.parts.Keys
            && (forall d :: d in p.run.parts && d != c ==> q.run.parts[d] == p.run.parts[d])
            && (forall d :: d in p.run.parts && Terminal(p.run.parts[d].status) ==> q.run.parts[d] == p.run.parts[d])
  {
  }

  ghost predicate BuildsHaveOutput(jobs: map<JobId, Job>) {
    forall j :: j in jobs && jobs[j].kind == BuildJob && jobs[j].status == JobSucceeded ==> jobs[j].output.Some?
  }

  lemma VisitMovesItsPart(s: State, r: RunId, run: Run, p: Progress, c: ComponentId, now: Time, env: Env)
    requires p.run == run.(parts := p.run.parts) && p.run.parts.Keys == run.parts.Keys
    requires c in run.parts && c in run.config.specs && p.run.parts[c] == run.parts[c]
    requires BuildsHaveOutput(s.jobs)
    ensures PartMoves(s.jobs, r, run, Visit(s, r, p, c, now, env).run, c)
  {
    var q := Visit(s, r, p, c, now, env);
    var part, deps := p.run.parts[c], p.run.config.specs[c].deps;
    VisitTouchesOnePart(s, r, p, c, now, env);
    if !Terminal(part.status) {
      if SomeBad(p.run, deps) {
        var d :| d in deps && d in p.run.parts && Bad(p.run.parts[d].status);
        assert d in InRun(run, c) && Bad(q.run.parts[d].status);
      } else if AllSucceeded(p.run, deps) && HasJob(s.jobs, r, c, NextKind(part)) {
        var j := TheJob(s.jobs, r, c, NextKind(part));
        assert j in s.jobs && Is(s.jobs[j], r, c, NextKind(part));
      }
    }
  }

  lemma OthersStillMove(jobs: map<JobId, Job>, r: RunId, run: Run, a: Run, b: Run, d: ComponentId)
    requires d in run.parts && d in run.config.specs && d in a.parts && d in b.parts
    requires PartMoves(jobs, r, run, a, d) && b.parts[d] == a.parts[d]
    requires forall x :: x in a.parts && Terminal(a.parts[x].status) ==> x in b.parts && b.parts[x] == a.parts[x]
    ensures PartMoves(jobs, r, run, b, d)
  {
  }

  lemma VisitMoves(s: State, r: RunId, run: Run, p: Progress, n: nat, now: Time, env: Env)
    requires n < |run.config.order| && Distinct(run.config.order) && BuildsHaveOutput(s.jobs)
    requires Reached(s, r, run, p, n)
    ensures Reached(s, r, run, Visit(s, r, p, run.config.order[n], now, env), n + 1)
  {
    hide Visit, PartMoves, BuildsHaveOutput;
    var c := run.config.order[n];
    var q := Visit(s, r, p, c, now, env);
    VisitTouchesOnePart(s, r, p, c, now, env);
    assert c !in run.config.order[..n];
    assert run.config.order[..n + 1] == run.config.order[..n] + [c];
    forall d | d in run.parts && d in run.config.specs ensures PartMoves(s.jobs, r, run, q.run, d) {
      if d == c {
        VisitMovesItsPart(s, r, run, p, c, now, env);
      } else {
        OthersStillMove(s.jobs, r, run, p.run, q.run, d);
      }
    }
  }

  lemma {:induction false} PassMoves(s: State, r: RunId, run: Run, n: nat, now: Time, env: Env)
    requires n <= |run.config.order| && Distinct(run.config.order) && BuildsHaveOutput(s.jobs)
    ensures Reached(s, r, run, PassOver(s, r, run, n, now, env), n)
    decreases n
  {
    hide Visit, PartMoves, BuildsHaveOutput;
    if n > 0 {
      PassMoves(s, r, run, n - 1, now, env);
      VisitMoves(s, r, run, PassOver(s, r, run, n - 1, now, env), n - 1, now, env);
    } else {
      forall c | c in run.parts && c in run.config.specs ensures PartMoves(s.jobs, r, run, run, c) {
        StandingStill(s.jobs, r, run, c);
      }
    }
  }

  lemma StandingStill(jobs: map<JobId, Job>, r: RunId, run: Run, c: ComponentId)
    requires c in run.parts && c in run.config.specs
    ensures PartMoves(jobs, r, run, run, c)
  {
  }

  // ---------- Every job a pass writes is an enabled write ----------

  /** The jobs created so far: one per visited component, each under its own fresh id. */
  ghost predicate CreatedOk(s: State, r: RunId, run: Run, p: Progress, n: nat, env: Env)
    requires n <= |run.config.order|
  {
    forall i :: 0 <= i < |p.created| ==>
      && p.created[i].1.run == r && p.created[i].1.component in run.config.order[..n]
      && p.created[i].1.component in env.ids && p.created[i].0 == env.ids[p.created[i].1.component]
  }

  lemma {:induction false} WithAdds(jobs: map<JobId, Job>, created: seq<(JobId, Job)>)
    requires forall i :: 0 <= i < |created| ==> created[i].0 !in jobs
    ensures forall j :: j in jobs ==> j in With(jobs, created) && With(jobs, created)[j] == jobs[j]
    ensures forall j :: j in With(jobs, created) ==>
              j in jobs || exists i :: 0 <= i < |created| && created[i] == (j, With(jobs, created)[j])
  {
    if created != [] {
      var n := |created| - 1;
      WithAdds(jobs, created[..n]);
      forall j | j in With(jobs, created) && j !in jobs
        ensures exists i :: 0 <= i < |created| && created[i] == (j, With(jobs, created)[j])
      {
        if j == created[n].0 {
          assert created[n] == (j, With(jobs, created)[j]);
        } else {
          var i :| 0 <= i < n && created[..n][i] == (j, With(jobs, created[..n])[j]);
          assert created[i] == (j, With(jobs, created)[j]);
        }
      }
    }
  }

  /** More jobs of run r, all for other components. */
  ghost predicate MoreJobs(s: State, jobs: map<JobId, Job>, r: RunId, c: ComponentId) {
    && (forall j :: j in s.jobs ==> j in jobs && jobs[j] == s.jobs[j])
    && (forall j :: j in jobs && j !in s.jobs ==> jobs[j].component != c)
  }

  lemma SucceededWasDeployed(s: State, r: RunId, run: Run, p: Run, d: ComponentId)
    requires r in s.runs && run.config == s.runs[r].config && run.parts == s.runs[r].parts
    requires d in run.parts && d in p.parts && d in run.config.specs && PartOk(s, r, d)
    requires PartMoves(s.jobs, r, run, p, d) && p.parts[d].status == PartSucceeded
    ensures Deployed(s.jobs, r, d)
  {
  }

  /** The commit of a deployment is the published head of the run that built its artifact. */
  lemma HeadIsPublished(s: State, r: RunId, c: ComponentId)
    requires Inv(s) && Startable(s, r) && c in s.runs[r].parts
    ensures var run := Started(s, r);
            var part := run.parts[c];
            var head := HeadFor(s.runs, run, part);
            && head.Some?
            && (part.artifact.Some? ==> part.release.Some? && part.release.value in s.sources
                                        && s.sources[part.release.value] == Published(head.value))
            && (part.artifact.None? ==> r in s.sources && s.sources[r] == Published(head.value)
                                        && run.body.operation == Operation.Deploy)
  {
    hide AllRunsOk, AllJobsOk, Exclusive, OneAfterAnother, DeliveredOk, RootsOwned, Equipped, ValidConfig, Settled;
    PartOf(s, r, c);
    var run := Started(s, r);
    var part := run.parts[c];
    if part.artifact.Some? && part.release.value != r {
      var o := part.release.value;
      var b :| b in s.jobs && Is(s.jobs[b], o, c, BuildJob) && s.jobs[b].status == JobSucceeded;
      JobOf(s, b);
      RunOf(s, o);
    }
  }

  /** No executor, binding, commit or previous artifact is ever missing, so the lookups need no checks of their own. */
  lemma AlwaysPrepared(s: State, r: RunId, c: ComponentId, now: Time, env: Env)
    requires Inv(s) && Startable(s, r) && c in s.runs[r].parts
    ensures c in s.runs[r].config.specs && Prepare(s.executors, s.runs, r, Started(s, r), c, now, env).Some?
    ensures s.runs[r].parts[c].previous.Some? ==>
              Prepare(s.executors, s.runs, r, Started(s, r), c, now, env).value.previous.Some?
  {
    hide AllRunsOk, AllJobsOk, Exclusive, OneAfterAnother, DeliveredOk, RootsOwned, Provenance, ValidConfig, Settled;
    PartOf(s, r, c);
    HeadIsPublished(s, r, c);
    if s.runs[r].parts[c].previous.Some? {
      SucceededHasArtifact(s, s.runs[r].parts[c].previous.value, c);
    }
  }

  lemma SucceededHasArtifact(s: State, q: RunId, c: ComponentId)
    requires Inv(s) && q in s.runs && c in s.runs[q].parts && s.runs[q].parts[c].status == PartSucceeded
    ensures s.runs[q].parts[c].artifact.Some?
  {
    hide AllRunsOk, AllJobsOk, Exclusive, OneAfterAnother, DeliveredOk, RootsOwned, Provenance, ValidConfig, Equipped;
    PartOf(s, q, c);
    var j :| j in s.jobs && Is(s.jobs[j], q, c, DeployJob) && s.jobs[j].status == JobSucceeded;
    JobOf(s, j);
  }

  lemma PreparedMayBeAdded(s: State, jobs: map<JobId, Job>, r: RunId, p: Run, c: ComponentId, j: JobId, now: Time, env: Env)
    requires Inv(s) && Startable(s, r) && c in s.runs[r].parts && c in s.runs[r].config.specs
    requires p == Started(s, r).(parts := p.parts) && p.parts.Keys == s.runs[r].parts.Keys
    requires p.parts[c] == s.runs[r].parts[c] && !Terminal(p.parts[c].status)
    requires forall d :: d in InRun(p, c) ==> Deployed(s.jobs, r, d)
    requires !HasJob(s.jobs, r, c, NextKind(p.parts[c])) && MoreJobs(s, jobs, r, c) && j !in jobs
    requires Prepare(s.executors, s.runs, r, p, c, now, env).Some?
    ensures MayAddJob(s.(jobs := jobs, clock := now), j, Prepare(s.executors, s.runs, r, p, c, now, env).value)
  {
    hide AllRunsOk, AllJobsOk, Exclusive, OneAfterAnother, DeliveredOk, RootsOwned, Equipped, ValidConfig, Settled, JobsUnique;
    hide Replaces, Serves, PreviousArtifact;
    PartOf(s, r, c);
    HeadIsPublished(s, r, c);
    var job := Prepare(s.executors, s.runs, r, p, c, now, env).value;
    if job.kind == DeployJob && s.runs[r].status == Publishing {
      PublishingHasNoArtifact(s, r, c);
    }
    forall d | d in InRun(s.runs[r], c) ensures Deployed(jobs, r, d) {
      assert d in InRun(p, c);
    }
    PreviousIsReplaced(s, jobs, r, c);
    PreparedServes(s, r, p, c, now, env);
  }

  lemma PreviousIsReplaced(s: State, jobs: map<JobId, Job>, r: RunId, c: ComponentId)
    requires Inv(s) && r in s.runs && c in s.runs[r].parts
    requires forall j :: j in s.jobs ==> j in jobs && jobs[j] == s.jobs[j]
    ensures Replaces(jobs, s.runs[r].parts[c], c, PreviousArtifact(s.runs, s.runs[r].parts[c], c))
  {
    hide AllRunsOk, AllJobsOk, Exclusive, OneAfterAnother, DeliveredOk, RootsOwned, Provenance, ValidConfig, Equipped;
    PartOf(s, r, c);
    var part := s.runs[r].parts[c];
    if part.previous.Some? {
      var q := part.previous.value;
      PartOf(s, q, c);
      var d :| d in s.jobs && Is(s.jobs[d], q, c, DeployJob) && s.jobs[d].status == JobSucceeded;
      JobOf(s, d);
      assert jobs[d] == s.jobs[d];
    }
  }

  lemma PreparedJobIs(s: State, r: RunId, p: Run, c: ComponentId, now: Time, env: Env)
    requires c in p.parts && c in p.config.specs && Prepare(s.executors, s.runs, r, p, c, now, env).Some?
    ensures var job := Prepare(s.executors, s.runs, r, p, c, now, env).value;
            && job.run == r && job.component == c && job.created == now && job.error.None?
            && (job.kind == BuildJob <==> p.parts[c].artifact.None?)
            && (job.kind == BuildJob ==> job.input == env.bundle)
  {
  }

  lemma PreparedServes(s: State, r: RunId, p: Run, c: ComponentId, now: Time, env: Env)
    requires c in p.parts && c in p.config.specs && Prepare(s.executors, s.runs, r, p, c, now, env).Some?
    ensures Serves(s.executors, Prepare(s.executors, s.runs, r, p, c, now, env).value, p.config.specs[c].recipe)
  {
  }

  lemma PublishingHasNoArtifact(s: State, r: RunId, c: ComponentId)
    requires Inv(s) && r in s.runs && s.runs[r].status == Publishing && c in s.runs[r].parts
    ensures s.runs[r].parts[c].artifact.None?
  {
    hide AllRunsOk, AllJobsOk, Exclusive, OneAfterAnother, DeliveredOk, RootsOwned, Equipped, ValidConfig, Settled;
    PartOf(s, r, c);
    NoDeployJobsYet(s, r);
  }

  lemma OutputsOf(s: State)
    requires AllJobsOk(s)
    ensures BuildsHaveOutput(s.jobs)
  {
  }

  lemma CreatedAreMoreJobs(s: State, r: RunId, run: Run, p: Progress, n: nat, env: Env)
    requires n < |run.config.order| && Distinct(run.config.order) && CreatedOk(s, r, run, p, n, env) && FreshIds(s, run, env)
    requires run.config.order[n] in env.ids
    ensures MoreJobs(s, With(s.jobs, p.created), r, run.config.order[n])
    ensures env.ids[run.config.order[n]] !in With(s.jobs, p.created)
  {
    WithAdds(s.jobs, p.created);
    assert run.config.order[n] !in run.config.order[..n];
  }

  lemma DependenciesDeployed(s: State, r: RunId, p: Run, c: ComponentId)
    requires AllRunsOk(s) && r in s.runs && p.config == s.runs[r].config && p.parts.Keys == s.runs[r].parts.Keys
    requires c in p.parts && c in p.config.specs && AllSucceeded(p, p.config.specs[c].deps)
    requires forall d :: d in p.parts && d in p.config.specs ==> PartMoves(s.jobs, r, s.runs[r], p, d)
    ensures forall d :: d in InRun(p, c) ==> Deployed(s.jobs, r, d)
  {
    hide AllRunsOk, PartMoves;
    forall d | d in InRun(p, c) ensures Deployed(s.jobs, r, d) {
      PartOf(s, r, d);
      SucceededWasDeployed(s, r, s.runs[r], p, d);
    }
  }

  lemma MovesFromDisk(jobs: map<JobId, Job>, r: RunId, disk: Run, run: Run, p: Run, d: ComponentId)
    requires run.parts == disk.parts && run.config == disk.config
    requires d in run.parts && d in p.parts && d in run.config.specs && PartMoves(jobs, r, run, p, d)
    ensures PartMoves(jobs, r, disk, p, d)
  {
    assert InRun(run, d) == InRun(disk, d);
  }

  /** The job a visit creates, if any, may be added to the records as they then stand. */
  lemma VisitCreates(s: State, r: RunId, p: Progress, n: nat, now: Time, env: Env)
    requires Inv(s) && Startable(s, r) && n < |s.runs[r].config.order| && FreshIds(s, Started(s, r), env)
    requires Reached(s, r, Started(s, r), p, n) && CreatedOk(s, r, Started(s, r), p, n, env)
    ensures var q := Visit(s, r, p, s.runs[r].config.order[n], now, env);
            && CreatedOk(s, r, Started(s, r), q, n + 1, env)
            && (q.created != p.created ==>
                  && |q.created| == |p.created| + 1 && q.created[..|p.created|] == p.created
                  && MayAddJob(s.(jobs := With(s.jobs, p.created), clock := now),
                               q.created[|p.created|].0, q.created[|p.created|].1))
    ensures var q, c := Visit(s, r, p, s.runs[r].config.order[n], now, env), s.runs[r].config.order[n];
            q.created != p.created ==>
              && c in p.run.parts
              && var job := q.created[|p.created|].1;
              && job.run == r && job.component == c && job.created == now && job.error.None?
              && (job.kind == BuildJob <==> p.run.parts[c].artifact.None?)
              && (job.kind == BuildJob ==> job.input == env.bundle)
  {
    hide Inv, PartMoves, Prepare, MayAddJob, Visit, FreshIds, Reached;
    var run := Started(s, r);
    var c := run.config.order[n];
    var q := Visit(s, r, p, c, now, env);
    assert run.config.order[..n + 1] == run.config.order[..n] + [c];
    VisitCreatesAtMostOne(s, r, p, c, now, env);
    if q.created != p.created {
      PreparedJobIs(s, r, p.run, c, now, env);
      ReachedHeader(s, r, run, p, n);
      CreatedMayBeAdded(s, r, p, n, now, env);
    }
  }

  lemma ReachedHeader(s: State, r: RunId, run: Run, p: Progress, n: nat)
    requires n <= |run.config.order| && Reached(s, r, run, p, n)
    ensures p.run.config == run.config && p.run.parts.Keys == run.parts.Keys
  {
  }

  lemma CreatedMayBeAdded(s: State, r: RunId, p: Progress, n: nat, now: Time, env: Env)
    requires Inv(s) && Startable(s, r) && n < |s.runs[r].config.order| && FreshIds(s, Started(s, r), env)
    requires Reached(s, r, Started(s, r), p, n) && CreatedOk(s, r, Started(s, r), p, n, env)
    requires var c := s.runs[r].config.order[n];
             && c in p.run.parts && c in p.run.config.specs && c in env.ids
             && !Terminal(p.run.parts[c].status) && AllSucceeded(p.run, p.run.config.specs[c].deps)
             && !HasJob(s.jobs, r, c, NextKind(p.run.parts[c]))
             && Prepare(s.executors, s.runs, r, p.run, c, now, env).Some?
    ensures var c := s.runs[r].config.order[n];
            MayAddJob(s.(jobs := With(s.jobs, p.created), clock := now), env.ids[c],
                      Prepare(s.executors, s.runs, r, p.run, c, now, env).value)
  {
    hide Inv, PartMoves, Prepare, MayAddJob, FreshIds, CreatedOk;
    var run := Started(s, r);
    var c := run.config.order[n];
    RunsOf(s);
    OrderOf(s, r);
    assert c !in run.config.order[..n];
    CreatedAreMoreJobs(s, r, run, p, n, env);
    forall d | d in p.run.parts && d in p.run.config.specs ensures PartMoves(s.jobs, r, s.runs[r], p.run, d) {
      MovesFromDisk(s.jobs, r, s.runs[r], run, p.run, d);
    }
    DependenciesDeployed(s, r, p.run, c);
    PreparedMayBeAdded(s, With(s.jobs, p.created), r, p.run, c, env.ids[c], now, env);
  }

  lemma OrderOf(s: State, r: RunId)
    requires AllRunsOk(s) && r in s.runs
    ensures Distinct(s.runs[r].config.order) && s.runs[r].parts.Keys <= s.runs[r].config.specs.Keys
    ensures forall c :: c in s.runs[r].config.specs <==> c in s.runs[r].config.order
  {
  }

  lemma RunsOf(s: State)
    requires Inv(s)
    ensures AllRunsOk(s) && AllJobsOk(s) && JobsUnique(s.jobs)
  {
  }

  lemma VisitCreatesAtMostOne(s: State, r: RunId, p: Progress, c: ComponentId, now: Time, env: Env)
    ensures var q := Visit(s, r, p, c, now, env);
            q.created != p.created ==>
              && c in p.run.parts && c in p.run.config.specs && c in env.ids
              && !Terminal(p.run.parts[c].status) && AllSucceeded(p.run, p.run.config.specs[c].deps)
              && !HasJob(s.jobs, r, c, NextKind(p.run.parts[c]))
              && Prepare(s.executors, s.runs, r, p.run, c, now, env).Some?
              && q.created == p.created + [(env.ids[c], Prepare(s.executors, s.runs, r, p.run, c, now, env).value)]
    ensures c in p.run.parts && c in p.run.config.specs && Prepare(s.executors, s.runs, r, p.run, c, now, env).Some? ==>
              var job := Prepare(s.executors, s.runs, r, p.run, c, now, env).value; job.run == r && job.component == c
  {
  }

  /** Saving the run at the end of a pass is an enabled write. */
  lemma PassMayBeSaved(s: State, r: RunId, p: Progress, now: Time, env: Env)
    requires Startable(s, r) && s.runs[r].parts.Keys <= s.runs[r].config.specs.Keys
    requires Reached(s, r, Started(s, r), p, |s.runs[r].config.order|)
    requires forall i :: 0 <= i < |p.created| ==> p.created[i].0 !in s.jobs
    ensures MaySavePass(s.(jobs := With(s.jobs, p.created), clock := now), r, Saved(p, now), now)
  {
    hide PartMoves;
    var run, b := Started(s, r), Saved(p, now);
    WithAdds(s.jobs, p.created);
    forall c | c in run.parts ensures PartMoves(With(s.jobs, p.created), r, s.runs[r], b, c) {
      MovesFromDisk(s.jobs, r, s.runs[r], run, p.run, c);
      MoreJobsStillMove(s.jobs, With(s.jobs, p.created), r, s.runs[r], p.run, b, c);
    }
  }

  lemma MoreJobsStillMove(jobs: map<JobId, Job>, more: map<JobId, Job>, r: RunId, a: Run, p: Run, b: Run, c: ComponentId)
    requires forall j :: j in jobs ==> j in more && more[j] == jobs[j]
    requires c in a.parts && c in p.parts && c in a.config.specs && b.parts == p.parts && PartMoves(jobs, r, a, p, c)
    ensures PartMoves(more, r, a, b, c)
  {
    var x, y := a.parts[c], b.parts[c];
    if y == x {
    } else if x.artifact.None? && y.artifact.Some? {
      assert Built(more, r, c, y.artifact.value);
    }
  }
}
