/** The orchestrator itself: every call as it runs over the record stores, one durable write at a time. */
module DeploymentStore {
  import opened Basics
  import opened DeploymentModel
  import opened DeploymentInvariant
  import opened DeploymentSteps
  import opened DeploymentTheorems
  import opened DeploymentPass
  import opened DeploymentProgress
  import opened DeploymentCalls
  import opened ComponentOrder

  class ComponentDeployments {
    var runs: map<RunId, Run>
    var jobs: map<JobId, Job>
    var sources: map<RunId, Source>
    var executors: map<ExecutorId, Executor>
    var profiles: map<ProfileId, Config>
    // In memory only: lost when the process restarts.
    var beats: map<ExecutorId, Time>
    // Durable writes that still succeed; the process dies at the next one.
    var fuel: nat
    ghost var clock: Time
    ghost var delivered: map<(ProfileId, ComponentId), RunId>
    ghost var history: seq<State>

    ghost function Now(): State
      reads this
    {
      State(runs, jobs, sources, executors, profiles, clock, delivered)
    }

    ghost predicate Valid()
      reads this
    {
      History(history) && history[|history| - 1] == Now()
    }

    constructor Open(fuel: nat)
      ensures Valid() && Now() == EMPTY && history == [EMPTY] && beats == map[]
      ensures this.fuel == fuel
    {
      runs, jobs, sources, executors, profiles, beats := map[], map[], map[], map[], map[], map[];
      this.fuel := fuel;
      clock, delivered, history := 0, map[], [EMPTY];
    }

    /** A restart finds the records as the last successful write left them; the heartbeats are gone. */
    constructor Restart(died: ComponentDeployments, fuel: nat)
      requires died.Valid()
      ensures Valid() && Now() == died.Now() && history == died.history && beats == map[]
      ensures this.fuel == fuel
    {
      runs, jobs, sources, executors, profiles := died.runs, died.jobs, died.sources, died.executors, died.profiles;
      beats := map[];
      this.fuel := fuel;
      clock, delivered, history := died.clock, died.delivered, died.history;
    }

    lemma Sound()
      requires Valid()
      ensures Inv(Now())
    {
      EveryStateIsSound(history, |history| - 1);
    }

    // ---------- Durable writes ----------

    ghost method Observe(now: Time)
      requires Valid() && clock <= now
      modifies this`clock, this`history
      ensures Valid() && Now() == old(Now()).(clock := now) && old(history) <= history
    {
      Extends1(history, Tick, now);
      clock := now;
      history := history + [Now()];
    }

    method PutRun(r: RunId, run: Run, ghost a: Action) returns (ok: bool)
      requires Valid() && Enabled(Now(), a, clock)
      requires Effect(Now(), a, clock) == Now().(runs := runs[r := run])
      modifies this`runs, this`fuel, this`history
      ensures !ok ==> fuel == 0
      ensures Valid() && old(history) <= history
      ensures Now() == if ok then Effect(old(Now()), a, clock) else old(Now())
    {
      if fuel == 0 { return false; }
      fuel := fuel - 1;
      Extends1(history, a, clock);
      runs := runs[r := run];
      history := history + [Now()];
      return true;
    }

    method PutJob(j: JobId, job: Job, ghost a: Action) returns (ok: bool)
      requires Valid() && Enabled(Now(), a, clock)
      requires Effect(Now(), a, clock) == Now().(jobs := jobs[j := job], delivered := Effect(Now(), a, clock).delivered)
      modifies this`jobs, this`fuel, this`history, this`delivered
      ensures !ok ==> fuel == 0
      ensures Valid() && old(history) <= history
      ensures Now() == if ok then Effect(old(Now()), a, clock) else old(Now())
    {
      if fuel == 0 { return false; }
      fuel := fuel - 1;
      Extends1(history, a, clock);
      ghost var t := Effect(Now(), a, clock);
      jobs := jobs[j := job];
      delivered := t.delivered;
      history := history + [Now()];
      return true;
    }

    method PutSource(r: RunId, source: Source) returns (ok: bool)
      requires Valid() && Enabled(Now(), SourceReplies(r, source), clock)
      modifies this`sources, this`fuel, this`history
      ensures !ok ==> fuel == 0
      ensures Valid() && old(history) <= history
      ensures Now() == if ok then Effect(old(Now()), SourceReplies(r, source), clock) else old(Now())
    {
      if fuel == 0 { return false; }
      fuel := fuel - 1;
      Extends1(history, SourceReplies(r, source), clock);
      sources := sources[r := source];
      history := history + [Now()];
      return true;
    }

    method PutExecutor(e: ExecutorId, executor: Executor, ghost a: Action) returns (ok: bool)
      requires Valid() && Enabled(Now(), a, clock)
      requires Effect(Now(), a, clock) == Now().(executors := executors[e := executor])
      modifies this`executors, this`fuel, this`history
      ensures !ok ==> fuel == 0
      ensures Valid() && old(history) <= history
      ensures Now() == if ok then Effect(old(Now()), a, clock) else old(Now())
    {
      if fuel == 0 { return false; }
      fuel := fuel - 1;
      Extends1(history, a, clock);
      executors := executors[e := executor];
      history := history + [Now()];
      return true;
    }

    method PutProfile(p: ProfileId, config: Config) returns (ok: bool)
      requires Valid() && Enabled(Now(), SaveProfile(p, config), clock)
      modifies this`profiles, this`fuel, this`history
      ensures !ok ==> fuel == 0
      ensures Valid() && old(history) <= history
      ensures Now() == if ok then Effect(old(Now()), SaveProfile(p, config), clock) else old(Now())
    {
      if fuel == 0 { return false; }
      fuel := fuel - 1;
      Extends1(history, SaveProfile(p, config), clock);
      profiles := profiles[p := config];
      history := history + [Now()];
      return true;
    }

    // ---------- advance ----------

    /** One turn of that loop; s are the records the pass read when it began. */
    method VisitComponent(r: RunId, c: ComponentId, run: Run, snapshot: map<JobId, Job>, now: Time, env: Env,
                          ghost s: State, ghost p: Progress, ghost n: nat)
      returns (done: bool, next: Run)
      requires Valid() && Inv(s) && Startable(s, r) && FreshIds(s, Started(s, r), env)
      requires n < |s.runs[r].config.order| && c == s.runs[r].config.order[n]
      requires p == After(s, r, n, now, env) && run == p.run
      requires Now() == s.(jobs := With(s.jobs, p.created)) && clock == now && snapshot == s.jobs
      modifies this`jobs, this`fuel, this`history, this`delivered
      ensures !done ==> fuel == 0
      ensures Valid() && old(history) <= history
      ensures var q := After(s, r, n + 1, now, env);
              done ==> next == q.run && Now() == s.(jobs := With(s.jobs, q.created))
      ensures !done ==> Now() == old(Now())
    {
      hide Inv, Prepare, History, With, Enabled, Effect, FreshIds, After, PassOver;
      AfterNext(s, r, n, now, env);
      next := run;
      if c !in run.parts || c !in run.config.specs || Terminal(run.parts[c].status) { return true, run; }
      var part, deps := run.parts[c], run.config.specs[c].deps;
      if SomeBad(run, deps) {
        return true, Replace(run, c, part.(status := Blocked, error := Some(DEPENDENCY_FAILED)));
      }
      if !AllSucceeded(run, deps) { return true, run; }
      if j :| j in snapshot && Is(snapshot[j], r, c, NextKind(part)) {
        SameJob(s, r, c, NextKind(part), j);
        return true, Replace(run, c, Absorb(part, snapshot[j], r));
      }
      var job := Prepare(executors, runs, r, run, c, now, env);
      if job.None? || c !in env.ids { return true, run; }
      CreatedJobIsEnabled(s, r, n, now, env);
      AddJobAsSave(Now(), env.ids[c], job.value);
      done := PutJob(env.ids[c], job.value, AddJob(env.ids[c], job.value));
      next := Replace(run, c, part.(status := if part.artifact.Some? then Deploying else Building));
    }

    /** The loop over the components: jobs are written as they are created, the run only afterwards. */
    method RunPass(r: RunId, start: Run, now: Time, env: Env) returns (done: bool, run: Run)
      requires Valid() && clock == now && Startable(Now(), r) && start == Started(Now(), r) && FreshIds(Now(), start, env)
      modifies this`jobs, this`fuel, this`history, this`delivered
      ensures !done ==> fuel == 0
      ensures Valid() && old(history) <= history
      ensures var s := old(Now());
              var p := Pass(s, r, now, env);
              && (done ==> run == p.run && Now() == s.(jobs := With(s.jobs, p.created)))
              && (!done ==> exists k :: 0 <= k <= |p.created| && Now() == s.(jobs := With(s.jobs, p.created[..k])))
    {
      hide Inv, Prepare, History, With, Visit, FreshIds;
      ghost var s := Now();
      Sound();
      var snapshot := jobs;
      run := start;
      EmptyWith(s);
      for i := 0 to |start.config.order|
        invariant Valid() && old(history) <= history
        invariant run == After(s, r, i, now, env).run
        invariant Now() == s.(jobs := With(s.jobs, After(s, r, i, now, env).created))
      {
        ghost var p := After(s, r, i, now, env);
        PassPrefix(s, r, i, |start.config.order|, now, env);
        done, run := VisitComponent(r, start.config.order[i], run, snapshot, now, env, s, p, i);
        if !done {
          assert p.created == Pass(s, r, now, env).created[..|p.created|];
          return;
        }
      }
      done := true;
    }

    /** The parts of an expired run, component by component. */
    method ExpireParts(r: RunId, run: Run) returns (parts: map<ComponentId, Part>)
      requires JobsUnique(jobs)
      ensures parts == (map c | c in run.parts :: ExpiredPart(jobs, r, c, run.parts[c], REQUEST_EXPIRED))
    {
      parts := map[];
      var todo := run.parts.Keys;
      while todo != {}
        invariant todo <= run.parts.Keys
        invariant parts == (map c | c in run.parts && c !in todo :: ExpiredPart(jobs, r, c, run.parts[c], REQUEST_EXPIRED))
        decreases todo
      {
        var c :| c in todo;
        var part := run.parts[c];
        if part.status != PartSucceeded && part.status != PartFailed && part.status != Blocked {
          if j :| j in jobs && Is(jobs[j], r, c, DeployJob) {
            if jobs[j].status == JobSucceeded {
              part := part.(status := PartSucceeded);
            } else if jobs[j].status == Working || jobs[j].status == JobUncertain {
              part := part.(status := PartUncertain);
            } else {
              part := part.(status := PartFailed, error := Some(REQUEST_EXPIRED));
            }
          } else {
            part := part.(status := PartFailed, error := Some(REQUEST_EXPIRED));
          }
        }
        parts := parts[c := part];
        todo := todo - {c};
      }
    }

    method Advance(r: RunId, now: Time, turn: Turn) returns (done: bool)
      requires Valid() && clock == now && r in runs && FreshIds(Now(), runs[r], turn.env)
      modifies this`runs, this`jobs, this`sources, this`fuel, this`history, this`delivered
      ensures !done ==> fuel == 0
      ensures Valid() && old(history) <= history
      ensures done ==> Now() == Advanced(old(Now()), r, turn)
      ensures clock == now && AddsOnly(old(Now()), Now(), turn.env)
    {
      hide Inv, History, With, Visit, AddsOnly, Expired, AfterPassState;
      var run := runs[r];
      ghost var s := Now();
      RunWriteAddsNothing(s, s, r, turn.env);
      if run.status != Publishing && run.status != Running { return true; }
      if !turn.allowed || run.expires <= now {
        done := GiveUp(r, now);
        RunWriteAddsNothing(s, Now(), r, turn.env);
        return;
      }
      if run.status == Publishing {
        if turn.refusal.Some? {
          done := StopPublishing(r, now, turn.refusal.value);
          RunWriteAddsNothing(s, Now(), r, turn.env);
          return;
        }
        if r !in sources {
          done := PutSource(r, Waiting);
          if !done { return; }
        }
        match sources[r]
        case Waiting =>
          done := PutRun(r, run.(updated := now), SaveWaiting(r));
          RunWriteAddsNothing(s, Now(), r, turn.env);
          return;
        case Refused(error) =>
          done := StopPublishing(r, now, error);
          RunWriteAddsNothing(s, Now(), r, turn.env);
          return;
        case Published(head) =>
          run := run.(status := Running, sourceHead := Some(head));
      }
      ghost var t := Now();
      done := FinishPass(r, run, now, turn.env);
      AddsOnlyFromSame(s, t, Now(), turn.env);
    }

    /** An expired or no longer permitted run is given up, but for deploy work that may still be under way. */
    method GiveUp(r: RunId, now: Time) returns (done: bool)
      requires Valid() && clock == now && r in runs && (runs[r].status == Publishing || runs[r].status == Running)
      modifies this`runs, this`fuel, this`history
      ensures !done ==> fuel == 0
      ensures Valid() && old(history) <= history
      ensures Now() == if done then old(Now()).(runs := old(runs)[r := Expired(jobs, r, old(runs)[r], now, REQUEST_EXPIRED)])
                       else old(Now())
      ensures runs[r].config == old(runs)[r].config
    {
      hide Inv, History, ExpiredPart;
      Sound();
      UniqueJobs(Now());
      var run := runs[r];
      var parts := ExpireParts(r, run);
      var status := if Any(parts, PartUncertain) then RunUncertain else Outcome(parts);
      done := PutRun(r, run.(parts := parts, updated := now, status := status), SaveExpired(r, REQUEST_EXPIRED));
    }

    method StopPublishing(r: RunId, now: Time, error: ErrorCode) returns (done: bool)
      requires Valid() && clock == now && r in runs && runs[r].status == Publishing
      modifies this`runs, this`fuel, this`history
      ensures !done ==> fuel == 0
      ensures Valid() && old(history) <= history
      ensures Now() == if done then old(Now()).(runs := old(runs)[r := Unpublished(old(runs)[r], now, error)]) else old(Now())
    {
      hide History;
      done := PutRun(r, Unpublished(runs[r], now, error), SaveUnpublished(r, error));
    }

    method FinishPass(r: RunId, start: Run, now: Time, env: Env) returns (done: bool)
      requires Valid() && clock == now && Startable(Now(), r) && start == Started(Now(), r) && FreshIds(Now(), start, env)
      modifies this`runs, this`jobs, this`fuel, this`history, this`delivered
      ensures !done ==> fuel == 0
      ensures Valid() && old(history) <= history && clock == now
      ensures done ==> Now() == AfterPassState(old(Now()), r, now, env)
      ensures AddsOnly(old(Now()), Now(), env)
    {
      hide Inv, History, With, Visit, FreshIds, MaySavePass;
      ghost var s := Now();
      Sound();
      PassSaveIsEnabled(s, r, now, env);
      ghost var all := Pass(s, r, now, env).created;
      var run;
      done, run := RunPass(r, start, now, env);
      if !done {
        ghost var k :| 0 <= k <= |all| && Now() == s.(jobs := With(s.jobs, all[..k]));
        PassAddsOnly(s, Now(), r, k, now, env);
        return;
      }
      run := run.(status := AfterPass(run.parts), updated := now);
      done := PutRun(r, run, SavePass(r, run));
      assert all[..|all|] == all;
      PassAddsOnly(s, Now(), r, |all|, now, env);
    }

    /** The passes that `state` and `claim` make over every run before answering. */
    method AdvanceAll(listing: seq<RunId>, now: Time, plan: map<RunId, Turn>) returns (done: bool)
      requires Valid() && clock == now && Distinct(listing)
      requires (forall r :: r in listing ==> r in runs && r in plan) && FreshPlan(Now(), plan)
      modifies this`runs, this`jobs, this`sources, this`fuel, this`history, this`delivered
      ensures !done ==> fuel == 0
      ensures Valid() && old(history) <= history && clock == now
      ensures done ==> Now() == AdvancedAll(old(Now()), listing, plan)
    {
      hide Inv, History, Advanced, FreshPlan, AddsOnly;
      ghost var s := Now();
      ghost var left := plan;
      for i := 0 to |listing|
        invariant Valid() && old(history) <= history && runs.Keys == old(runs.Keys)
        invariant Now() == AdvancedAll(s, listing[..i], plan)
        invariant FreshPlan(Now(), left) && forall k :: i <= k < |listing| ==> listing[k] in left && left[listing[k]] == plan[listing[k]]
      {
        var r := listing[i];
        PlanForRun(Now(), left, r);
        ghost var before := Now();
        done := Advance(r, now, plan[r]);
        if !done { return; }
        PlanStaysFresh(before, Now(), left, r);
        left := left - {r};
        assert listing[..i + 1][..i] == listing[..i];
        SameRuns(before, Now(), plan[r].env);
      }
      assert listing[..|listing|] == listing;
      done := true;
    }

    /** Work for an executor: at most one queued job of a running, permitted run, marked working before it is handed out. */
    method Claim(e: ExecutorId, owner: bool, permitted: set<Actor>, now: Time, listing: seq<RunId>, plan: map<RunId, Turn>)
      returns (reply: Reply<Option<JobId>>)
      requires Valid() && clock <= now && Lists(listing, runs.Keys)
      requires (forall r :: r in listing ==> r in plan) && FreshPlan(Now(), plan)
      modifies this`runs, this`jobs, this`sources, this`fuel, this`history, this`delivered, this`clock
      ensures reply.Died? ==> fuel == 0
      ensures Valid() && old(history) <= history
      ensures var s := old(Now()).(clock := now);
              var mid := AdvancedAll(s, listing, plan);
              var problem := AuthenticationProblem(s.executors, e, owner, now);
              match reply
              case Died => true
              case Rejected(why) =>
                if problem.Some? then why == problem.value && Now() == s
                else Now() == mid && exists j :: Offered(mid, j, e) && ClaimAnswer(mid, j, e, permitted) == Some(why)
              case Done(None) => problem.None? && Now() == mid && forall j :: !Offered(mid, j, e)
              case Done(Some(j)) =>
                && problem.None? && Offered(mid, j, e) && ClaimAnswer(mid, j, e, permitted).None?
                && Now() == mid.(jobs := mid.jobs[j := mid.jobs[j].(status := Working)])
    {
      hide Inv, History, AdvancedAll, Enabled, Effect, FreshPlan;
      Observe(now);
      var problem := AuthenticationProblem(executors, e, owner, now);
      if problem.Some? { return Rejected(problem.value); }
      FreshAtAnyTime(old(Now()), now, plan);
      var done := AdvanceAll(listing, now, plan);
      if !done { return Died; }
      reply := HandOut(e, permitted, now);
    }

    method HandOut(e: ExecutorId, permitted: set<Actor>, now: Time) returns (reply: Reply<Option<JobId>>)
      requires Valid() && clock == now && e in executors
      modifies this`jobs, this`fuel, this`history, this`delivered
      ensures reply.Died? ==> fuel == 0
      ensures Valid() && old(history) <= history
      ensures var s := old(Now());
              match reply
              case Died => Now() == s
              case Rejected(why) => Now() == s && exists j :: Offered(s, j, e) && ClaimAnswer(s, j, e, permitted) == Some(why)
              case Done(None) => Now() == s && forall j :: !Offered(s, j, e)
              case Done(Some(j)) =>
                && Offered(s, j, e) && ClaimAnswer(s, j, e, permitted).None?
                && Now() == s.(jobs := s.jobs[j := s.jobs[j].(status := Working)])
    {
      hide Inv, History, Enabled, Effect;
      if j :| j in jobs && jobs[j].executor == e && jobs[j].status == Queued && now < jobs[j].expires {
        assert Offered(Now(), j, e);
        var job := jobs[j];
        Sound();
        RunOfJob(Now(), j);
        if runs[job.run].status != Running || runs[job.run].actor !in permitted { return Rejected(JobExpired); }
        if executors[e].profile != job.profile || executors[e].role != (if job.kind == BuildJob then Builder else Destination) {
          return Rejected(JobDenied);
        }
        ClaimAsSave(Now(), j);
        var done := PutJob(j, job.(status := Working), ClaimJob(j));
        if !done { return Died; }
        return Done(Some(j));
      }
      return Done(None);
    }

    /** The job must exist and belong to the executor that names it. */
    method OwnJob(e: ExecutorId, owner: bool, j: JobId, now: Time) returns (problem: Option<Refusal>)
      requires clock == now
      ensures problem == OwnJobProblem(Now(), e, j, owner) && problem != Some(ArtifactConflict)
    {
      problem := AuthenticationProblem(executors, e, owner, now);
      if problem.Some? { return; }
      if j !in jobs { return Some(JobNotFound); }
      if jobs[j].executor != e || jobs[j].profile != executors[e].profile { return Some(JobDenied); }
    }

    /** A build's output is fixed by its first upload. */
    method Upload(e: ExecutorId, owner: bool, j: JobId, output: Digest, now: Time) returns (reply: Reply<Digest>)
      requires Valid() && clock <= now
      modifies this`jobs, this`fuel, this`history, this`delivered, this`clock
      ensures reply.Died? ==> fuel == 0
      ensures Valid() && old(history) <= history
      ensures var s := old(Now()).(clock := now);
              match reply
              case Died => Now() == s
              case Rejected(why) =>
                && Now() == s
                && (OwnJobProblem(s, e, j, owner).Some? ==> why == OwnJobProblem(s, e, j, owner).value)
                && (OwnJobProblem(s, e, j, owner).None? ==>
                      if s.jobs[j].kind != BuildJob || s.jobs[j].status != Working || s.jobs[j].expires <= now
                      then why == JobExpired
                      else why == ArtifactConflict && s.jobs[j].output.Some? && s.jobs[j].output.value != output)
              case Done(d) =>
                && d == output && OwnJobProblem(s, e, j, owner).None?
                && (s.jobs[j].output.Some? ==> s.jobs[j].output.value == output)
                && s.jobs[j].kind == BuildJob && s.jobs[j].status == Working && now < s.jobs[j].expires
                && Now() == s.(jobs := s.jobs[j := s.jobs[j].(output := Some(output))])
    {
      hide Inv, History;
      Observe(now);
      var problem := OwnJob(e, owner, j, now);
      if problem.Some? { return Rejected(problem.value); }
      var job := jobs[j];
      if job.kind != BuildJob || job.status != Working || job.expires <= now { return Rejected(JobExpired); }
      if job.output.Some? && job.output.value != output { return Rejected(ArtifactConflict); }
      var done := PutJob(j, job.(output := Some(output)), UploadOutput(j, output));
      if !done { return Died; }
      return Done(output);
    }

    /** A worker's report: idempotent, bound to the artifact it was given, and followed by a pass over the run. */
    method Complete(e: ExecutorId, owner: bool, j: JobId, status: JobStatus, artifact: Digest, error: Option<ErrorCode>,
                    now: Time, turn: Turn)
      returns (reply: Reply<()>)
      requires Valid() && clock <= now
      requires status == JobSucceeded || status == JobFailed || status == JobUncertain
      requires j in jobs && jobs[j].run in runs ==> FreshIds(Now(), runs[jobs[j].run], turn.env)
      modifies this`runs, this`jobs, this`sources, this`fuel, this`history, this`delivered, this`clock
      ensures reply.Died? ==> fuel == 0
      ensures Valid() && old(history) <= history
      ensures var s := old(Now()).(clock := now);
              var problem := OwnJobProblem(s, e, j, owner);
              match reply
              case Died => true
              case Rejected(why) =>
                && Now() == s
                && (problem.Some? ==> why == problem.value)
                && (problem.None? ==>
                      if artifact != Reported(s.jobs[j]) then why == ArtifactConflict
                      else why == JobConflict && s.jobs[j].status != status
                           && (s.jobs[j].status != Working
                               || (s.jobs[j].kind == BuildJob && status == JobSucceeded && s.jobs[j].output.None?)))
              case Done(_) =>
                && problem.None? && artifact == Reported(s.jobs[j])
                && (s.jobs[j].status == status ==> Now() == s)
                && (s.jobs[j].status != status ==>
                      && Enabled(s, CompleteJob(j, status, error), now)
                      && Now() == Advanced(Effect(s, CompleteJob(j, status, error), now), s.jobs[j].run, turn))
      ensures reply.Done? ==> j in old(jobs) && Concerns(old(runs), old(jobs)[j], artifact)
      ensures reply.Done? && old(jobs)[j].kind == BuildJob && status == JobSucceeded ==> old(jobs)[j].output == Some(artifact)
      ensures reply == Rejected(ArtifactConflict) ==> j in old(jobs) && !Concerns(old(runs), old(jobs)[j], artifact)
    {
      hide Inv, History, Advanced, FreshIds, Enabled, Effect, AuthenticationProblem, Concerns;
      Observe(now);
      Sound();
      ReportedIsConcerned(Now(), j, artifact);
      var problem := OwnJob(e, owner, j, now);
      if problem.Some? { return Rejected(problem.value); }
      var job := jobs[j];
      if artifact != Reported(job) { return Rejected(ArtifactConflict); }
      if job.status == status { return Done(()); }
      if job.status != Working || (job.kind == BuildJob && status == JobSucceeded && job.output.None?) {
        return Rejected(JobConflict);
      }
      CompletionAsSave(Now(), j, status, error);
      if job.run in runs {
        FreshWhenever(old(Now()), now, runs[job.run], turn.env);
      }
      var done := Settle(j, status, error, now, turn);
      return if done then Done(()) else Died;
    }

    /** The report is recorded, and the run looked at again. */
    method Settle(j: JobId, status: JobStatus, error: Option<ErrorCode>, now: Time, turn: Turn) returns (done: bool)
      requires Valid() && clock == now && Enabled(Now(), CompleteJob(j, status, error), now) && j in jobs
      requires jobs[j].run in runs ==> FreshIds(Now(), runs[jobs[j].run], turn.env)
      modifies this`runs, this`jobs, this`sources, this`fuel, this`history, this`delivered
      ensures !done ==> fuel == 0
      ensures Valid() && old(history) <= history
      ensures done ==> Now() == Advanced(Effect(old(Now()), CompleteJob(j, status, error), now), old(jobs)[j].run, turn)
    {
      hide Inv, History, Advanced, FreshIds, Enabled, Effect;
      var job := jobs[j];
      Sound();
      RunOfJob(Now(), j);
      CompletionNeeds(Now(), j, status, error);
      CompletionAsSave(Now(), j, status, error);
      CompletionKeepsIds(Now(), now, j, status, error, turn.env);
      done := PutJob(j, job.(status := status, error := if error.Some? then error else job.error),
                     CompleteJob(j, status, error));
      if !done { return; }
      done := Advance(job.run, now, turn);
    }

    // ---------- request ----------

    method StartParts(v: View, listing: seq<RunId>, config: Config, operation: Operation, names: seq<ComponentId>)
      returns (parts: Option<map<ComponentId, Part>>)
      ensures parts == StartingParts(v, listing, config.profile, operation, names)
    {
      var made: map<ComponentId, Part> := map[];
      for i := 0 to |names|
        invariant StartingParts(v, listing, config.profile, operation, names[..i]) == Some(made)
      {
        assert names[..i + 1][..i] == names[..i];
        var part := StartingPart(v, listing, config.profile, operation, names[i]);
        if part.None? {
          NoPartsFromHere(v, listing, config.profile, operation, names, i + 1);
          return None;
        }
        made := made[names[i] := part.value];
      }
      assert names[..|names|] == names;
      return Some(made);
    }

    method CheckComponents(v: View, listing: seq<RunId>, config: Config, body: Request, names: seq<ComponentId>)
      returns (problem: Option<Refusal>)
      requires forall c :: c in names ==> c in config.specs
      ensures problem == FirstProblem(v, beats, listing, config, body, names)
    {
      hide ComponentProblem;
      for i := 0 to |names|
        invariant FirstProblem(v, beats, listing, config, body, names) == FirstProblem(v, beats, listing, config, body, names[i..])
      {
        problem := ComponentProblem(v, beats, listing, config, body, names[i]);
        assert names[i..][1..] == names[i + 1..];
        if problem.Some? { return; }
      }
      return None;
    }

    /** The checks of a request that is not stored yet, in their order. */
    method Decide(actor: Actor, body: Request, owner: bool, connected: bool, now: Time, listing: seq<RunId>)
      returns (answer: Result<Run, Refusal>)
      requires body.profile in profiles ==> Lists(profiles[body.profile].names, profiles[body.profile].specs.Keys)
      ensures answer == NewRun(View(runs, executors, profiles, now), beats, listing, actor, body, owner, connected)
    {
      hide FirstProblem, StartingParts, HoldsAny, Lists, ComponentProblem, StartingPart;
      AllKnown(profiles, body);
      var v := View(runs, executors, profiles, now);
      if body.profile !in profiles || profiles[body.profile].archived || profiles[body.profile].revision != body.revision {
        return Err(RevisionConflict);
      }
      var config := profiles[body.profile];
      var names := Selected(config.names, body.component);
      if names == [] { return Err(ComponentNotFound); }
      if (exists c :: c in names && config.specs[c].recipe == NATIVE) && !owner { return Err(AccessDenied); }
      if exists q :: q in runs && HoldsAny(runs[q], config, names) { return Err(TargetBusy); }
      var problem := CheckComponents(v, listing, config, body, names);
      if problem.Some? { return Err(problem.value); }
      var parts := StartParts(v, listing, config, body.operation, names);
      if parts.None? { return Err(RollbackUnavailable); }
      if body.operation == Operation.Deploy && !connected { return Err(ConnectorOffline); }
      return Ok(Run(actor, body, config, None, if body.operation == Operation.Deploy then Publishing else Running,
                    now, now, now + HOUR, parts.value, None));
    }

    /** A request is decided once; a repetition of it finds the stored run. */
    method Request(r: RunId, actor: Actor, body: Request, allowed: bool, owner: bool, connected: bool, now: Time,
                   listing: seq<RunId>, turn: Turn)
      returns (reply: Reply<Run>)
      requires Valid() && clock <= now && Lists(listing, runs.Keys)
      requires body.profile in profiles ==> FreshFor(jobs, profiles[body.profile], turn.env)
      modifies this`runs, this`jobs, this`sources, this`fuel, this`history, this`delivered, this`clock
      ensures reply.Died? ==> fuel == 0
      ensures Valid() && old(history) <= history
      ensures var s := old(Now()).(clock := now);
              var answer := Answer(ViewOf(s), old(beats), listing, r, actor, body, allowed, owner, connected);
              match reply
              case Died => answer.Ok?
              case Rejected(why) => answer == Err(why) && Now() == s
              case Done(run) =>
                && answer.Ok? && r in runs && runs[r] == run
                && Now() == if r in s.runs then s else Advanced(s.(runs := s.runs[r := answer.value]), r, turn)
    {
      hide Inv, History, Advanced, NewRun, MayAddRun, FreshFor, Lists;
      Observe(now);
      if !allowed { return Rejected(AccessDenied); }
      if r in runs {
        if runs[r].actor != actor || !SameRequest(runs[r].body, body) { return Rejected(RequestConflict); }
        return Done(runs[r]);
      }
      Sound();
      StoredNames(Now());
      var answer := Decide(actor, body, owner, connected, now, listing);
      if answer.Err? { return Rejected(answer.error); }
      var run := answer.value;
      AcceptedMayBeAdded(Now(), beats, listing, r, actor, body, owner, connected);
      AcceptedConfig(ViewOf(Now()), beats, listing, actor, body, owner, connected);
      var done := PutRun(r, run, AddRun(r, run));
      if !done { return Died; }
      FreshForRun(Now(), run, turn.env);
      done := Advance(r, now, turn);
      if !done { return Died; }
      return Done(runs[r]);
    }

    // ---------- Closing an interrupted build ----------

    /** Close the run's remaining uncertain jobs, one write each; a retry completes them. */
    method CloseJobs(r: RunId) returns (done: bool)
      requires Valid() && r in runs && runs[r].resolution.Some?
      modifies this`jobs, this`fuel, this`history, this`delivered
      ensures !done ==> fuel == 0
      ensures Valid() && old(history) <= history
      ensures done ==> Now() == old(Now()).(jobs := JobsClosed(old(jobs), r))
    {
      hide Inv, History, Enabled, Effect, ClosedBut;
      ghost var s := Now();
      var todo := jobs.Keys;
      NoneClosed(jobs, r);
      while todo != {}
        invariant Valid() && old(history) <= history && todo <= jobs.Keys
        invariant Now() == s.(jobs := ClosedBut(s.jobs, r, todo))
        decreases todo
      {
        var j :| j in todo;
        var job := jobs[j];
        OneMoreClosed(s.jobs, r, todo, j);
        if job.run == r && job.status == JobUncertain {
          CloseJobEnabled(Now(), j, BUILD_CLOSED, clock);
          done := PutJob(j, job.(status := JobFailed, error := Some(BUILD_CLOSED)), CloseJob(j, BUILD_CLOSED));
          if !done { return; }
        }
        todo := todo - {j};
      }
      done := true;
    }

    /** Only the requester may close an interrupted build, and only while nothing it made could have been deployed. */
    method CloseInterruptedBuild(r: RunId, actor: Actor, owner: bool, head: Head, change: nat, now: Time)
      returns (reply: Reply<()>)
      requires Valid() && clock <= now
      modifies this`runs, this`jobs, this`fuel, this`history, this`delivered, this`clock
      ensures reply.Died? ==> fuel == 0
      ensures Valid() && old(history) <= history
      ensures var s := old(Now()).(clock := now);
              var problem := CloseProblem(s, r, actor, owner, head, change);
              match reply
              case Died => problem.None?
              case Rejected(why) => problem == Some(why) && Now() == s
              case Done(_) =>
                && problem.None?
                && var run := if s.runs[r].resolution.Some? then s.runs[r]
                              else Closed(s.runs[r], Resolution(actor, now, head, change), BUILD_CLOSED);
                Now() == s.(runs := s.runs[r := run], jobs := JobsClosed(s.jobs, r))
    {
      hide Inv, History, JobsClosed;
      Observe(now);
      if !owner { return Rejected(AccessDenied); }
      if r !in runs { return Rejected(RunNotFound); }
      var run := runs[r];
      if run.actor != actor || run.sourceHead != Some(head) { return Rejected(ResolutionDenied); }
      var done;
      if run.resolution.Some? {
        if run.resolution.value.change != change { return Rejected(ResolutionConflict); }
      } else {
        if !Closable(jobs, r, run) { return Rejected(ResolutionUnavailable); }
        var resolution := Resolution(actor, now, head, change);
        done := PutRun(r, Closed(run, resolution, BUILD_CLOSED), CloseRun(r, resolution, BUILD_CLOSED));
        if !done { return Died; }
      }
      done := CloseJobs(r);
      if !done { return Died; }
      return Done(());
    }

    // ---------- Executors and projects ----------

    method Enroll(e: ExecutorId, profile: ProfileId, role: Role, actor: Actor, owner: bool, now: Time)
      returns (reply: Reply<ExecutorId>)
      requires Valid() && clock <= now && e !in executors && e != UNASSIGNED
      modifies this`executors, this`fuel, this`history, this`clock
      ensures reply.Died? ==> fuel == 0
      ensures Valid() && old(history) <= history
      ensures var s := old(Now()).(clock := now);
              match reply
              case Died => Now() == s
              case Rejected(why) =>
                && Now() == s && why == (if !owner then AccessDenied else ProfileNotFound)
                && (owner ==> profile !in s.profiles)
              case Done(id) =>
                && id == e && owner && profile in s.profiles
                && Now() == s.(executors := s.executors[e := Executor(profile, role, actor, true, now + 90 * 24 * HOUR, None, [])])
    {
      hide Inv, History;
      Observe(now);
      if !owner { return Rejected(AccessDenied); }
      if profile !in profiles { return Rejected(ProfileNotFound); }
      var executor := Executor(profile, role, actor, true, now + 90 * 24 * HOUR, None, []);
      var done := PutExecutor(e, executor, AddExecutor(e, executor));
      if !done { return Died; }
      return Done(e);
    }

    /** The first heartbeat fixes an executor's system and roots; later ones must repeat them. */
    method Heartbeat(e: ExecutorId, owner: bool, system: string, bindings: seq<Binding>, now: Time)
      returns (reply: Reply<()>)
      requires Valid() && clock <= now
      modifies this`executors, this`beats, this`fuel, this`history, this`clock
      ensures reply.Died? ==> fuel == 0
      ensures Valid() && old(history) <= history
      ensures var s := old(Now()).(clock := now);
              var problem := HeartbeatProblem(s, e, owner, system, bindings);
              match reply
              case Died => problem.None? && Now() == s && beats == old(beats)
              case Rejected(why) => problem == Some(why) && Now() == s && beats == old(beats)
              case Done(_) =>
                && problem.None? && beats == old(beats)[e := now]
                && Now() == s.(executors := s.executors[e := s.executors[e].(system := Some(system), bindings := bindings)])
    {
      hide Inv, History;
      Observe(now);
      var problem := AuthenticationProblem(executors, e, owner, now);
      if problem.Some? { return Rejected(problem.value); }
      var executor := executors[e];
      if executor.system.Some? {
        if executor.system.value != system || executor.bindings != bindings { return Rejected(EnrollmentChanged); }
      } else {
        if executor.role == Destination && Overlapping(executors, e, system, bindings) { return Rejected(DestinationOwned); }
        FreeRootsMayBeBound(executors, e, system, bindings);
        var done := PutExecutor(e, executor.(system := Some(system), bindings := bindings), BindExecutor(e, system, bindings));
        if !done { return Died; }
      }
      beats := beats[e := now];
      return Done(());
    }

    method Revoke(e: ExecutorId, owner: bool, now: Time) returns (reply: Reply<()>)
      requires Valid() && clock <= now
      modifies this`executors, this`beats, this`fuel, this`history, this`clock
      ensures reply.Died? ==> fuel == 0
      ensures Valid() && old(history) <= history
      ensures var s := old(Now()).(clock := now);
              match reply
              case Died => owner && e in s.executors && Now() == s
              case Rejected(why) => Now() == s && why == (if !owner then AccessDenied else JobNotFound) && (owner ==> e !in s.executors)
              case Done(_) =>
                && owner && e in s.executors && beats == old(beats) - {e}
                && Now() == s.(executors := s.executors[e := s.executors[e].(active := false)])
    {
      hide Inv, History;
      Observe(now);
      if !owner { return Rejected(AccessDenied); }
      if e !in executors { return Rejected(JobNotFound); }
      var done := PutExecutor(e, executors[e].(active := false), RevokeExecutor(e));
      if !done { return Died; }
      beats := beats - {e};
      return Done(());
    }

    /** The dependency order of a project that may be saved. */
    method PlanOrder(nodes: seq<Node>, specs: map<ComponentId, Spec>) returns (order: Option<seq<ComponentId>>)
      requires specs.Keys == Ids(nodes) && forall n :: n in nodes ==> specs[n.id].deps == (set d | d in n.deps)
      ensures order.None? <==> !UniqueIds(nodes) || !DependenciesKnown(nodes) || Cyclic(nodes) || !DistinctTargets(specs)
      ensures order.Some? ==> Topological(order.value, specs)
    {
      hide UniqueIds, DependenciesKnown, Cyclic, Topological;
      var ordered := Order(nodes);
      if ordered.Err? { return None; }
      if exists x, y :: x in specs && y in specs && x != y && specs[x].destination != UNASSIGNED
                        && Target(specs[x]) == Target(specs[y]) {
        return None;
      }
      OrderIsTopological(nodes, specs, ordered.value);
      return Some(ordered.value);
    }

    /** A project is saved with its dependency order only while it is idle, at the next revision. */
    method Save(p: ProfileId, revision: nat, archived: bool, nodes: seq<Node>, specs: map<ComponentId, Spec>, owner: bool, now: Time)
      returns (reply: Reply<Config>)
      requires Valid() && clock <= now && specs.Keys == Ids(nodes)
      requires forall n :: n in nodes ==> specs[n.id].deps == (set d | d in n.deps)
      modifies this`profiles, this`fuel, this`history, this`clock
      ensures reply.Died? ==> fuel == 0
      ensures Valid() && old(history) <= history
      ensures var s := old(Now()).(clock := now);
              var stored := if p in s.profiles then s.profiles[p].revision else 0;
              match reply
              case Died => Now() == s
              case Rejected(why) =>
                && Now() == s && (!owner ==> why == AccessDenied)
                && (owner ==>
                    match why
                    case InvalidProject =>
                      !UniqueIds(nodes) || !DependenciesKnown(nodes) || Cyclic(nodes) || !DistinctTargets(specs)
                    case RevisionConflict => stored != revision
                    case ProjectBusy => exists r :: r in s.runs && s.runs[r].config.profile == p && Unfinished(s.runs[r])
                    case _ => false)
              case Done(config) =>
                && owner && stored == revision && config.profile == p && config.revision == revision + 1
                && config.archived == archived && config.specs == specs && ValidConfig(config)
                && |config.names| == |nodes| && (forall i :: 0 <= i < |nodes| ==> config.names[i] == nodes[i].id)
                && (forall r :: r in s.runs && s.runs[r].config.profile == p ==> !Unfinished(s.runs[r]))
                && Now() == s.(profiles := s.profiles[p := config])
    {
      hide Inv, History, UniqueIds, DependenciesKnown, Cyclic, DistinctTargets, ValidConfig;
      Observe(now);
      if !owner { return Rejected(AccessDenied); }
      var plan := PlanOrder(nodes, specs);
      if plan.None? { return Rejected(InvalidProject); }
      var stored := if p in profiles then profiles[p].revision else 0;
      if stored != revision { return Rejected(RevisionConflict); }
      if exists r :: r in runs && runs[r].config.profile == p && Unfinished(runs[r]) { return Rejected(ProjectBusy); }
      var names := seq(|nodes|, i requires 0 <= i < |nodes| => nodes[i].id);
      var config := Config(p, revision + 1, archived, names, specs, plan.value);
      PlannedConfig(nodes, config);
      var done := PutProfile(p, config);
      if !done { return Died; }
      return Done(config);
    }
  }
}
