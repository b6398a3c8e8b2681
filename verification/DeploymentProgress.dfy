/** No run is stuck: once its jobs have finished, every pass brings a run strictly closer to its end. */
module DeploymentProgress {
  import opened Basics
  import opened DeploymentModel
  import opened DeploymentInvariant
  import opened DeploymentSteps
  import opened DeploymentTheorems
  import opened DeploymentPass

  /** Steps a component still has ahead: build, absorb the build, deploy, absorb the deployment. */
  ghost function Stage(jobs: map<JobId, Job>, r: RunId, c: ComponentId, part: Part): nat {
    if Terminal(part.status) then 0
    else if part.artifact.Some? then (if HasJob(jobs, r, c, DeployJob) then 1 else 2)
    else if HasJob(jobs, r, c, BuildJob) then 3 else 4
  }

  ghost function Remaining(jobs: map<JobId, Job>, r: RunId, run: Run, n: nat): nat
    requires n <= |run.config.order|
  {
    if n == 0 then 0
    else
      var c := run.config.order[n - 1];
      Remaining(jobs, r, run, n - 1) + if c in run.parts then Stage(jobs, r, c, run.parts[c]) else 0
  }

  ghost function Total(s: State, r: RunId): nat
    requires r in s.runs
  {
    Remaining(s.jobs, r, s.runs[r], |s.runs[r].config.order|)
  }

  lemma {:induction false} AtMostFourEach(jobs: map<JobId, Job>, r: RunId, run: Run, n: nat)
    requires n <= |run.config.order|
    ensures Remaining(jobs, r, run, n) <= 4 * n
  {
    if n > 0 {
      AtMostFourEach(jobs, r, run, n - 1);
    }
  }

  /** Every job of the run has reported. */
  ghost predicate Quiet(jobs: map<JobId, Job>, r: RunId) {
    forall j :: j in jobs && jobs[j].run == r ==> jobs[j].status != Queued && jobs[j].status != Working
  }

  ghost predicate Descends(jobs: map<JobId, Job>, more: map<JobId, Job>, r: RunId, a: Run, b: Run) {
    && a.config == b.config && a.parts.Keys == b.parts.Keys
    && forall c :: c in a.parts ==> Stage(more, r, c, b.parts[c]) <= Stage(jobs, r, c, a.parts[c])
  }

  lemma {:induction false} SumDescends(jobs: map<JobId, Job>, more: map<JobId, Job>, r: RunId, a: Run, b: Run, n: nat, k: nat)
    requires Descends(jobs, more, r, a, b) && n <= |a.config.order|
    ensures Remaining(more, r, b, n) <= Remaining(jobs, r, a, n)
    ensures k < n && a.config.order[k] in a.parts
            && Stage(more, r, a.config.order[k], b.parts[a.config.order[k]])
               < Stage(jobs, r, a.config.order[k], a.parts[a.config.order[k]])
            ==> Remaining(more, r, b, n) < Remaining(jobs, r, a, n)
  {
    hide Stage;
    if n > 0 {
      SumDescends(jobs, more, r, a, b, n - 1, k);
    }
  }

  lemma PartDescends(jobs: map<JobId, Job>, more: map<JobId, Job>, r: RunId, a: Run, b: Run, c: ComponentId)
    requires forall j :: j in jobs ==> j in more && more[j] == jobs[j]
    requires c in a.parts && c in b.parts && c in a.config.specs && PartMoves(jobs, r, a, b, c)
    ensures Stage(more, r, c, b.parts[c]) <= Stage(jobs, r, c, a.parts[c])
  {
    assert HasJob(jobs, r, c, DeployJob) ==> HasJob(more, r, c, DeployJob);
    assert HasJob(jobs, r, c, BuildJob) ==> HasJob(more, r, c, BuildJob);
  }

  /** The run in memory and the job records after n visits of a pass. */
  ghost function After(s: State, r: RunId, n: nat, now: Time, env: Env): Progress
    requires Startable(s, r) && n <= |s.runs[r].config.order|
  {
    PassOver(s, r, Started(s, r), n, now, env)
  }

  lemma AfterNext(s: State, r: RunId, n: nat, now: Time, env: Env)
    requires Startable(s, r) && n < |s.runs[r].config.order|
    ensures After(s, r, n + 1, now, env) == Visit(s, r, After(s, r, n, now, env), s.runs[r].config.order[n], now, env)
  {
    hide Visit;
  }

  lemma ReachedAfter(s: State, r: RunId, n: nat, now: Time, env: Env)
    requires Inv(s) && Startable(s, r) && n <= |s.runs[r].config.order|
    ensures Reached(s, r, Started(s, r), After(s, r, n, now, env), n)
  {
    hide Inv, Visit, Reached;
    RunsOf(s);
    OrderOf(s, r);
    OutputsOf(s);
    PassMoves(s, r, Started(s, r), n, now, env);
  }

  lemma NoneCreatedYet(s: State, r: RunId, now: Time, env: Env)
    requires Startable(s, r)
    ensures CreatedOk(s, r, Started(s, r), After(s, r, 0, now, env), 0, env)
  {
  }

  lemma {:induction false} PassCreates(s: State, r: RunId, n: nat, now: Time, env: Env)
    requires Inv(s) && Startable(s, r) && FreshIds(s, Started(s, r), env) && n <= |s.runs[r].config.order|
    ensures var p := After(s, r, n, now, env);
            Reached(s, r, Started(s, r), p, n) && CreatedOk(s, r, Started(s, r), p, n, env)
    decreases n
  {
    hide Inv, Visit, MayAddJob, FreshIds, Reached, CreatedOk, After;
    ReachedAfter(s, r, n, now, env);
    if n > 0 {
      PassCreates(s, r, n - 1, now, env);
      VisitCreates(s, r, After(s, r, n - 1, now, env), n - 1, now, env);
      AfterNext(s, r, n - 1, now, env);
    } else {
      NoneCreatedYet(s, r, now, env);
    }
  }

  ghost predicate Extends(jobs: map<JobId, Job>, more: map<JobId, Job>) {
    forall j :: j in jobs ==> j in more && more[j] == jobs[j]
  }

  ghost function JobsAfter(s: State, r: RunId, n: nat, now: Time, env: Env): map<JobId, Job>
    requires Startable(s, r) && n <= |s.runs[r].config.order|
  {
    With(s.jobs, After(s, r, n, now, env).created)
  }

  lemma WithAppend(jobs: map<JobId, Job>, created: seq<(JobId, Job)>, j: JobId, job: Job)
    ensures With(jobs, created + [(j, job)]) == With(jobs, created)[j := job]
  {
    var longer := created + [(j, job)];
    assert longer[..|longer| - 1] == created;
  }

  lemma VisitWritesFresh(s: State, r: RunId, n: nat, now: Time, env: Env)
    requires Inv(s) && Startable(s, r) && FreshIds(s, Started(s, r), env) && n < |s.runs[r].config.order|
    ensures Extends(JobsAfter(s, r, n, now, env), JobsAfter(s, r, n + 1, now, env))
    ensures var p, q := After(s, r, n, now, env), After(s, r, n + 1, now, env);
            q.created != p.created ==>
              q.created != [] && HasJob(JobsAfter(s, r, n + 1, now, env), r, s.runs[r].config.order[n],
                                        q.created[|q.created| - 1].1.kind)
  {
    hide Inv, Visit, Prepare, With, FreshIds, Reached, CreatedOk, Extends, HasJob, Distinct;
    var run, c := Started(s, r), s.runs[r].config.order[n];
    var p, q := After(s, r, n, now, env), After(s, r, n + 1, now, env);
    VisitCreatesAtMostOne(s, r, p, c, now, env);
    if q.created != p.created {
      RunsOf(s);
      OrderOf(s, r);
      PassCreates(s, r, n, now, env);
      CreatedAreMoreJobs(s, r, run, p, n, env);
      AppendExtends(s.jobs, p.created, env.ids[c], Prepare(s.executors, s.runs, r, p.run, c, now, env).value);
    } else {
      ExtendsItself(With(s.jobs, p.created));
    }
  }

  lemma AppendExtends(jobs: map<JobId, Job>, created: seq<(JobId, Job)>, j: JobId, job: Job)
    requires j !in With(jobs, created)
    ensures Extends(With(jobs, created), With(jobs, created + [(j, job)]))
    ensures HasJob(With(jobs, created + [(j, job)]), job.run, job.component, job.kind)
  {
    WithAppend(jobs, created, j, job);
    assert Is(With(jobs, created + [(j, job)])[j], job.run, job.component, job.kind);
  }

  lemma ExtendsItself(jobs: map<JobId, Job>)
    ensures Extends(jobs, jobs)
  {
  }

  lemma ExtendsTransitive(a: map<JobId, Job>, b: map<JobId, Job>, c: map<JobId, Job>)
    requires Extends(a, b) && Extends(b, c)
    ensures Extends(a, c)
  {
  }

  lemma OneMoreKeeps(s: State, r: RunId, n: nat, now: Time, env: Env)
    requires Inv(s) && Startable(s, r) && FreshIds(s, Started(s, r), env) && n < |s.runs[r].config.order|
    ensures Extends(JobsAfter(s, r, n, now, env), JobsAfter(s, r, n + 1, now, env))
    ensures var p, q := After(s, r, n, now, env), After(s, r, n + 1, now, env);
            forall d :: d in p.run.parts && d != s.runs[r].config.order[n] ==>
              d in q.run.parts && q.run.parts[d] == p.run.parts[d]
  {
    hide Inv, Visit, With, FreshIds, Extends, After, JobsAfter;
    AfterNext(s, r, n, now, env);
    VisitTouchesOnePart(s, r, After(s, r, n, now, env), s.runs[r].config.order[n], now, env);
    VisitWritesFresh(s, r, n, now, env);
  }

  lemma OtherPlace(s: State, r: RunId, n: nat, m: nat)
    requires Inv(s) && r in s.runs && n < m < |s.runs[r].config.order|
    ensures s.runs[r].config.order[n] != s.runs[r].config.order[m]
  {
    hide Inv;
    RunsOf(s);
    OrderOf(s, r);
  }

  /** What a visit settles stays settled, and the job it creates stays written, through the rest of the pass. */
  lemma {:induction false} RestOfPassKeeps(s: State, r: RunId, n: nat, m: nat, now: Time, env: Env)
    requires Inv(s) && Startable(s, r) && FreshIds(s, Started(s, r), env)
    requires n < m <= |s.runs[r].config.order|
    ensures var c := s.runs[r].config.order[n];
            var p, q := After(s, r, n + 1, now, env), After(s, r, m, now, env);
            c in p.run.parts ==> c in q.run.parts && q.run.parts[c] == p.run.parts[c]
    ensures Extends(JobsAfter(s, r, n + 1, now, env), JobsAfter(s, r, m, now, env))
    decreases m
  {
    hide Inv, FreshIds, Extends, After, JobsAfter;
    if m == n + 1 {
      ExtendsItself(JobsAfter(s, r, m, now, env));
    } else {
      RestOfPassKeeps(s, r, n, m - 1, now, env);
      OtherPlace(s, r, n, m - 1);
      OneMoreKeeps(s, r, m - 1, now, env);
      ExtendsTransitive(JobsAfter(s, r, n + 1, now, env), JobsAfter(s, r, m - 1, now, env), JobsAfter(s, r, m, now, env));
    }
  }

  /** The first component that is not finished always moves. */
  lemma FirstUnfinishedMoves(s: State, r: RunId, n: nat, now: Time, env: Env)
    requires Inv(s) && Startable(s, r) && FreshIds(s, Started(s, r), env) && Quiet(s.jobs, r)
    requires n < |s.runs[r].config.order| && s.runs[r].config.order[n] in s.runs[r].parts
    requires !Terminal(s.runs[r].parts[s.runs[r].config.order[n]].status)
    requires forall k :: 0 <= k < n && s.runs[r].config.order[k] in s.runs[r].parts
               ==> Terminal(s.runs[r].parts[s.runs[r].config.order[k]].status)
    ensures var c := s.runs[r].config.order[n];
            var q := After(s, r, n + 1, now, env);
            c in q.run.parts
            && Stage(JobsAfter(s, r, n + 1, now, env), r, c, q.run.parts[c]) < Stage(s.jobs, r, c, s.runs[r].parts[c])
  {
    hide Inv, Prepare, Visit, With, Stage, FreshIds, After, Quiet;
    RunsOf(s);
    OutputsOf(s);
    DueAfter(s, r, n, now, env);
    VisitWritesFresh(s, r, n, now, env);
    AfterNext(s, r, n, now, env);
    VisitDescends(s, r, After(s, r, n, now, env), s.runs[r].config.order[n], now, env);
  }

  /** When the pass comes to the first unfinished component, that component is as it was and everything it needs is there. */
  lemma DueAfter(s: State, r: RunId, n: nat, now: Time, env: Env)
    requires Inv(s) && Startable(s, r) && FreshIds(s, Started(s, r), env)
    requires n < |s.runs[r].config.order| && s.runs[r].config.order[n] in s.runs[r].parts
    requires forall k :: 0 <= k < n && s.runs[r].config.order[k] in s.runs[r].parts
               ==> Terminal(s.runs[r].parts[s.runs[r].config.order[k]].status)
    ensures var p, c := After(s, r, n, now, env), s.runs[r].config.order[n];
            && c in p.run.parts && c in p.run.config.specs && c in env.ids && p.run.parts[c] == s.runs[r].parts[c]
            && Prepare(s.executors, s.runs, r, p.run, c, now, env).Some?
            && forall d :: d in p.run.config.specs[c].deps && d in p.run.parts ==> Terminal(p.run.parts[d].status)
  {
    hide Inv, Prepare, Visit, PartMoves, FreshIds, Reached, After;
    var run, c := Started(s, r), s.runs[r].config.order[n];
    var p := After(s, r, n, now, env);
    RunsOf(s);
    OrderOf(s, r);
    ReachedAfter(s, r, n, now, env);
    NotYetVisited(s, r, p, n);
    AlwaysPrepared(s, r, c, now, env);
    HasFreshId(s, run, env);
    PrepareDependsOnPart(s, r, run, p.run, c, now, env);
    DependenciesFinished(s, r, p.run, n);
  }

  lemma NotYetVisited(s: State, r: RunId, p: Progress, n: nat)
    requires Inv(s) && Startable(s, r) && n < |s.runs[r].config.order| && Reached(s, r, Started(s, r), p, n)
    ensures var run, c := Started(s, r), s.runs[r].config.order[n];
            && p.run == run.(parts := p.run.parts) && p.run.parts.Keys == run.parts.Keys
            && (c in run.parts ==> p.run.parts[c] == run.parts[c])
            && forall d :: d in p.run.parts && d in p.run.config.specs ==> PartMoves(s.jobs, r, s.runs[r], p.run, d)
  {
    hide Inv, PartMoves;
    RunsOf(s);
    OrderOf(s, r);
    assert s.runs[r].config.order[n] !in s.runs[r].config.order[..n];
    forall d | d in p.run.parts && d in p.run.config.specs ensures PartMoves(s.jobs, r, s.runs[r], p.run, d) {
      MovesFromDisk(s.jobs, r, s.runs[r], Started(s, r), p.run, d);
    }
  }

  lemma HasFreshId(s: State, run: Run, env: Env)
    requires FreshIds(s, run, env)
    ensures run.config.specs.Keys <= env.ids.Keys
  {
  }

  lemma PrepareDependsOnPart(s: State, r: RunId, run: Run, p: Run, c: ComponentId, now: Time, env: Env)
    requires p == run.(parts := p.parts) && c in run.parts && c in p.parts && c in run.config.specs
    requires p.parts[c] == run.parts[c]
    ensures Prepare(s.executors, s.runs, r, p, c, now, env) == Prepare(s.executors, s.runs, r, run, c, now, env)
  {
  }

  lemma DependenciesFinished(s: State, r: RunId, p: Run, n: nat)
    requires Inv(s) && r in s.runs && p.config == s.runs[r].config && p.parts.Keys == s.runs[r].parts.Keys
    requires n < |p.config.order| && p.config.order[n] in p.config.specs
    requires forall k :: 0 <= k < n && p.config.order[k] in s.runs[r].parts ==> Terminal(s.runs[r].parts[p.config.order[k]].status)
    requires forall d :: d in p.parts && d in p.config.specs ==> PartMoves(s.jobs, r, s.runs[r], p, d)
    ensures forall d :: d in p.config.specs[p.config.order[n]].deps && d in p.parts ==> Terminal(p.parts[d].status)
  {
    hide AllRunsOk, AllJobsOk, Exclusive, OneAfterAnother, DeliveredOk, RootsOwned;
    RunOf(s, r);
    forall d | d in p.config.specs[p.config.order[n]].deps && d in p.parts ensures Terminal(p.parts[d].status) {
      assert d in p.config.order[..n];
      assert PartMoves(s.jobs, r, s.runs[r], p, d);
    }
  }

  lemma VisitDescends(s: State, r: RunId, p: Progress, c: ComponentId, now: Time, env: Env)
    requires c in p.run.parts && c in p.run.config.specs && !Terminal(p.run.parts[c].status) && c in env.ids
    requires forall d :: d in p.run.config.specs[c].deps && d in p.run.parts ==> Terminal(p.run.parts[d].status)
    requires Quiet(s.jobs, r) && BuildsHaveOutput(s.jobs)
    requires Prepare(s.executors, s.runs, r, p.run, c, now, env).Some?
    requires var q := Visit(s, r, p, c, now, env);
             q.created != p.created ==>
               q.created != [] && HasJob(With(s.jobs, q.created), r, c, q.created[|q.created| - 1].1.kind)
    ensures var q := Visit(s, r, p, c, now, env);
            c in q.run.parts && Stage(With(s.jobs, q.created), r, c, q.run.parts[c]) < Stage(s.jobs, r, c, p.run.parts[c])
  {
    var part, deps := p.run.parts[c], p.run.config.specs[c].deps;
    var q := Visit(s, r, p, c, now, env);
    if !SomeBad(p.run, deps) {
      assert AllSucceeded(p.run, deps);
      if HasJob(s.jobs, r, c, NextKind(part)) {
        var j := TheJob(s.jobs, r, c, NextKind(part));
        assert s.jobs[j].status != Queued && s.jobs[j].status != Working;
      } else {
        assert q.created[|q.created| - 1].1.kind == NextKind(part);
      }
    }
  }

  ghost function FirstUnfinished(run: Run, n: nat): (k: nat)
    requires n < |run.config.order| && run.config.order[n] in run.parts
    requires !Terminal(run.parts[run.config.order[n]].status)
    ensures k <= n && run.config.order[k] in run.parts && !Terminal(run.parts[run.config.order[k]].status)
    ensures forall i :: 0 <= i < k && run.config.order[i] in run.parts ==> Terminal(run.parts[run.config.order[i]].status)
    decreases n
  {
    if m: nat :| m < n && run.config.order[m] in run.parts && !Terminal(run.parts[run.config.order[m]].status)
    then FirstUnfinished(run, m) else n
  }

  /** A pass over a run whose jobs have all reported ends it or brings it strictly closer to its end. */
  lemma PassMakesProgress(s: State, r: RunId, now: Time, env: Env)
    requires Inv(s) && Startable(s, r) && FreshIds(s, Started(s, r), env) && Quiet(s.jobs, r)
    ensures var t := AfterPassState(s, r, now, env);
            t.runs[r].status != Running || Total(t, r) < Total(s, r)
  {
    hide Inv, Visit, With, Stage, PartMoves, CreatedOk, FreshIds, Quiet, RunOk;
    var run, t := s.runs[r], AfterPassState(s, r, now, env);
    var N := |run.config.order|;
    RunsOf(s);
    OrderOf(s, r);
    PassCreates(s, r, N, now, env);
    var p := After(s, r, N, now, env);
    PassExtends(s, r, N, now, env);
    forall c | c in run.parts ensures Stage(t.jobs, r, c, t.runs[r].parts[c]) <= Stage(s.jobs, r, c, run.parts[c]) {
      MovesFromDisk(s.jobs, r, run, Started(s, r), p.run, c);
      PartDescends(s.jobs, t.jobs, r, run, p.run, c);
    }
    if t.runs[r].status == Running {
      var c := StillOpen(t.runs[r]);
      MovesFromDisk(s.jobs, r, run, Started(s, r), p.run, c);
      OpenBefore(s.jobs, r, run, p.run, c);
      var m :| 0 <= m < N && run.config.order[m] == c;
      var k := FirstUnfinished(run, m);
      FirstUnfinishedMoves(s, r, k, now, env);
      RestOfPassKeeps(s, r, k, N, now, env);
      MoreJobsNoMoreStages(JobsAfter(s, r, k + 1, now, env), t.jobs, r, run.config.order[k],
                           t.runs[r].parts[run.config.order[k]]);
      SumDescends(s.jobs, t.jobs, r, run, t.runs[r], N, k);
    }
  }

  lemma PassExtends(s: State, r: RunId, n: nat, now: Time, env: Env)
    requires Inv(s) && Startable(s, r) && FreshIds(s, Started(s, r), env) && n <= |s.runs[r].config.order|
    ensures Extends(s.jobs, JobsAfter(s, r, n, now, env))
  {
    hide Inv, Visit;
    PassCreates(s, r, n, now, env);
    WithAdds(s.jobs, After(s, r, n, now, env).created);
  }

  lemma StillOpen(run: Run) returns (c: ComponentId)
    requires run.status == Running && run.status == AfterPass(run.parts)
    ensures c in run.parts && !Terminal(run.parts[c].status)
  {
    c :| c in run.parts && !Terminal(run.parts[c].status);
  }

  lemma OpenBefore(jobs: map<JobId, Job>, r: RunId, a: Run, b: Run, c: ComponentId)
    requires c in a.parts && c in b.parts && c in a.config.specs && PartMoves(jobs, r, a, b, c)
    requires !Terminal(b.parts[c].status)
    ensures !Terminal(a.parts[c].status)
  {
  }

  lemma MoreJobsNoMoreStages(jobs: map<JobId, Job>, more: map<JobId, Job>, r: RunId, c: ComponentId, part: Part)
    requires Extends(jobs, more)
    ensures Stage(more, r, c, part) <= Stage(jobs, r, c, part)
  {
    assert HasJob(jobs, r, c, DeployJob) ==> HasJob(more, r, c, DeployJob);
    assert HasJob(jobs, r, c, BuildJob) ==> HasJob(more, r, c, BuildJob);
  }

  // ---------- No step makes a run longer ----------

  ghost predicate Open(run: Run) {
    run.status == Publishing || run.status == Running
  }

  /** Whatever is written, by whichever call, a run that stays open never has more stages ahead than before. */
  lemma StepDescends(s: State, a: Action, now: Time, r: RunId)
    requires Inv(s) && Enabled(s, a, now) && r in s.runs
    requires r in Effect(s, a, now).runs && Open(Effect(s, a, now).runs[r])
    ensures Total(Effect(s, a, now), r) <= Total(s, r)
  {
    hide Inv, Total, MayAddRun, MayAddJob, MaySavePass, Effect, Enabled, PartMoves;
    var t := Effect(s, a, now);
    StepKeeps(s, a, now);
    if a.SavePass? && a.r == r {
      PassSaveDescends(s, t, a, now);
    } else {
      SamePartsAfter(s, a, now, r);
      WaitingDescends(s, t, r);
    }
  }

  lemma SamePartsAfter(s: State, a: Action, now: Time, r: RunId)
    requires Inv(s) && Enabled(s, a, now) && r in s.runs && !(a.SavePass? && a.r == r)
    requires r in Effect(s, a, now).runs && Open(Effect(s, a, now).runs[r])
    ensures var t := Effect(s, a, now);
            t.runs[r].parts == s.runs[r].parts && t.runs[r].config == s.runs[r].config
  {
    hide AllRunsOk, AllJobsOk, Exclusive, OneAfterAnother, DeliveredOk, RootsOwned, JobsUnique;
    hide MayAddRun, MayAddJob, MaySavePass, MayClose, ExpiredPart;
    OldRunsOnly(s, a, now, r);
  }

  lemma OldRunsOnly(s: State, a: Action, now: Time, r: RunId)
    requires Enabled(s, a, now) && r in s.runs
    ensures a.AddRun? ==> a.r != r
    ensures (a.SaveExpired? || a.SaveUnpublished? || a.CloseRun?) && a.r == r ==> !Open(Effect(s, a, now).runs[r])
  {
    hide MayAddJob, MaySavePass, MayClose, ValidConfig, NewPart, Equipped, ExpiredPart;
  }

  lemma PassSaveDescends(s: State, t: State, a: Action, now: Time)
    requires Inv(s) && a.SavePass? && Enabled(s, a, now) && t == Effect(s, a, now)
    ensures Total(t, a.r) <= Total(s, a.r)
  {
    hide Inv, Stage, PartMoves, AfterPass;
    forall c | c in s.runs[a.r].parts
      ensures Stage(t.jobs, a.r, c, t.runs[a.r].parts[c]) <= Stage(s.jobs, a.r, c, s.runs[a.r].parts[c])
    {
      PartDescends(s.jobs, t.jobs, a.r, s.runs[a.r], t.runs[a.r], c);
    }
    SumDescends(s.jobs, t.jobs, a.r, s.runs[a.r], t.runs[a.r], |s.runs[a.r].config.order|, 0);
  }

  lemma WaitingDescends(s: State, e: State, r: RunId)
    requires JobsLater(s.jobs, e.jobs) && r in s.runs && r in e.runs
    requires e.runs[r].parts == s.runs[r].parts && e.runs[r].config == s.runs[r].config
    ensures Total(e, r) <= Total(s, r)
  {
    hide JobsLater;
    var run := s.runs[r];
    forall c | c in run.parts ensures Stage(e.jobs, r, c, run.parts[c]) <= Stage(s.jobs, r, c, run.parts[c]) {
      HasJobStays(s.jobs, e.jobs, r, c, DeployJob);
      HasJobStays(s.jobs, e.jobs, r, c, BuildJob);
    }
    SumDescends(s.jobs, e.jobs, r, run, e.runs[r], |run.config.order|, 0);
  }

  lemma HasJobStays(a: map<JobId, Job>, b: map<JobId, Job>, r: RunId, c: ComponentId, kind: Kind)
    requires JobsLater(a, b)
    ensures HasJob(a, r, c, kind) ==> HasJob(b, r, c, kind)
  {
    if j :| j in a && Is(a[j], r, c, kind) {
      assert JobLater(a[j], b[j]);
    }
  }

  lemma {:induction false} TotalNeverRises(h: seq<State>, i: nat, k: nat, r: RunId)
    requires History(h) && i <= k < |h| && r in h[i].runs && r in h[k].runs && Open(h[k].runs[r])
    ensures Open(h[i].runs[r]) && h[k].runs[r].config == h[i].runs[r].config && Total(h[k], r) <= Total(h[i], r)
    decreases k
  {
    hide History, Inv, Total, Effect, Enabled, Later;
    StaysOpenOnly(h, i, k, r);
    if i < k {
      NothingIsForgotten(h, i, k - 1);
      KeepsRuns(h[i], h[k - 1], r);
      StaysOpenOnly(h, k - 1, k, r);
      TotalNeverRises(h, i, k - 1, r);
      EveryStateIsSound(h, k - 1);
      var a, now := StepOf(h, k - 1);
      StepDescends(h[k - 1], a, now, r);
    }
  }

  lemma KeepsRuns(s: State, t: State, r: RunId)
    requires Later(s, t) && r in s.runs
    ensures r in t.runs
  {
  }

  lemma StaysOpenOnly(h: seq<State>, i: nat, k: nat, r: RunId)
    requires History(h) && i <= k < |h| && r in h[i].runs && r in h[k].runs && Open(h[k].runs[r])
    ensures Open(h[i].runs[r]) && h[k].runs[r].config == h[i].runs[r].config
  {
    hide History;
    NothingIsForgotten(h, i, k);
    assert RunLater(h[i].runs[r], h[k].runs[r]);
  }

  // ---------- Bounded runs ----------

  /** The jobs a pass created are on record, whatever has happened to them since. */
  ghost predicate Written(created: seq<(JobId, Job)>, jobs: map<JobId, Job>) {
    forall n :: 0 <= n < |created| ==> created[n].0 in jobs && JobLater(created[n].1, jobs[created[n].0])
  }

  /**
   A permitted, unexpired pass over run r read the records of state i and saved the run in state j. Other
   calls and other passes may have written anything between the two, before them and after them.
   */
  ghost predicate PassMade(h: seq<State>, i: nat, j: nat, r: RunId) {
    && i < j < |h| && Startable(h[i], r) && r in h[j].runs
    && exists now, env :: IsPass(h[i], h[j], r, now, env)
  }

  ghost predicate IsPass(s: State, t: State, r: RunId, now: Time, env: Env)
    requires Startable(s, r) && r in t.runs
  {
    && FreshIds(s, Started(s, r), env)
    && t.runs[r] == Saved(Pass(s, r, now, env), now) && Written(Pass(s, r, now, env).created, t.jobs)
  }

  /** A pass that begins when every job of the run has reported ends the run or leaves it fewer stages. */
  lemma PassShortens(h: seq<State>, i: nat, j: nat, r: RunId)
    requires History(h) && PassMade(h, i, j, r) && Quiet(h[i].jobs, r) && Open(h[j].runs[r])
    ensures Total(h[j], r) < Total(h[i], r)
  {
    hide History, Inv, Total, Later, IsPass, Quiet, With;
    var now, env :| IsPass(h[i], h[j], r, now, env);
    EveryStateIsSound(h, i);
    NothingIsForgotten(h, i, j);
    WholePass(h[i], h[j], r, now, env);
    PassMakesProgress(h[i], r, now, env);
    SamePassFewerStages(h[i], h[j], r, now, env);
  }

  lemma WholePass(s: State, t: State, r: RunId, now: Time, env: Env)
    requires Startable(s, r) && r in t.runs && IsPass(s, t, r, now, env)
    ensures FreshIds(s, Started(s, r), env) && t.runs[r] == AfterPassState(s, r, now, env).runs[r]
    ensures t.runs[r].status != Publishing
  {
    hide FreshIds, Pass, Written;
  }

  lemma SamePassFewerStages(s: State, t: State, r: RunId, now: Time, env: Env)
    requires Inv(s) && Later(s, t) && Startable(s, r) && r in t.runs && IsPass(s, t, r, now, env)
    ensures Total(t, r) <= Total(AfterPassState(s, r, now, env), r)
  {
    hide Inv, Visit, FreshIds, Stage, PartMoves, With, HasJob, Later, Written;
    var e := AfterPassState(s, r, now, env);
    var run := e.runs[r];
    forall c | c in run.parts ensures Stage(t.jobs, r, c, run.parts[c]) <= Stage(e.jobs, r, c, run.parts[c]) {
      PassJobsStay(s, t, r, now, env, c, BuildJob);
      PassJobsStay(s, t, r, now, env, c, DeployJob);
      MoreOfBothKinds(e.jobs, t.jobs, r, c, run.parts[c]);
    }
    SumDescends(e.jobs, t.jobs, r, run, t.runs[r], |run.config.order|, 0);
  }

  lemma MoreOfBothKinds(jobs: map<JobId, Job>, more: map<JobId, Job>, r: RunId, c: ComponentId, part: Part)
    requires HasJob(jobs, r, c, BuildJob) ==> HasJob(more, r, c, BuildJob)
    requires HasJob(jobs, r, c, DeployJob) ==> HasJob(more, r, c, DeployJob)
    ensures Stage(more, r, c, part) <= Stage(jobs, r, c, part)
  {
  }

  lemma PassJobsStay(s: State, t: State, r: RunId, now: Time, env: Env, c: ComponentId, kind: Kind)
    requires Inv(s) && Later(s, t) && Startable(s, r) && r in t.runs && IsPass(s, t, r, now, env)
    ensures HasJob(AfterPassState(s, r, now, env).jobs, r, c, kind) ==> HasJob(t.jobs, r, c, kind)
  {
    hide Inv, Visit, With, FreshIds, RunsLater, SourcesLater, ExecutorsLater;
    var created := Pass(s, r, now, env).created;
    var e := AfterPassState(s, r, now, env);
    CreatedAreFresh(s, r, now, env);
    WithAdds(s.jobs, created);
    if j :| j in e.jobs && Is(e.jobs[j], r, c, kind) {
      if j in s.jobs {
        assert JobLater(s.jobs[j], t.jobs[j]);
      } else {
        var n :| 0 <= n < |created| && created[n] == (j, e.jobs[j]);
        assert JobLater(created[n].1, t.jobs[j]);
      }
    }
  }

  lemma CreatedAreFresh(s: State, r: RunId, now: Time, env: Env)
    requires Inv(s) && Startable(s, r) && FreshIds(s, Started(s, r), env)
    ensures forall i :: 0 <= i < |Pass(s, r, now, env).created| ==> Pass(s, r, now, env).created[i].0 !in s.jobs
  {
    hide Inv, Visit;
    PassCreates(s, r, |s.runs[r].config.order|, now, env);
  }

  /** Passes over r one after another, each begun when all of r's jobs had reported. */
  ghost predicate QuietPasses(h: seq<State>, r: RunId, starts: seq<nat>, ends: seq<nat>) {
    && |starts| == |ends|
    && (forall m :: 0 <= m < |starts| ==> PassMade(h, starts[m], ends[m], r) && Quiet(h[starts[m]].jobs, r))
    && forall m :: 0 <= m < |starts| - 1 ==> ends[m] <= starts[m + 1]
  }

  /**
   While a run is open it has been through at most four such passes for each component of its project,
   whatever other calls, claims, reports and passes the history holds between them.
   */
  lemma {:induction false} RunsEnd(h: seq<State>, r: RunId, starts: seq<nat>, ends: seq<nat>)
    requires History(h) && starts != [] && QuietPasses(h, r, starts, ends)
    requires Open(h[ends[|ends| - 1]].runs[r])
    ensures |starts| + Total(h[ends[|ends| - 1]], r) <= Total(h[starts[0]], r)
    ensures |starts| <= 4 * |h[starts[0]].runs[r].config.order|
    decreases |starts|
  {
    hide History, Total, PassMade, Quiet;
    var n := |starts| - 1;
    PassEnds(h, starts[n], ends[n], r);
    PassEnds(h, starts[0], ends[0], r);
    PassShortens(h, starts[n], ends[n], r);
    if n > 0 {
      PassEnds(h, starts[n - 1], ends[n - 1], r);
      StaysOpenOnly(h, ends[n - 1], ends[n], r);
      RunsEnd(h, r, starts[..n], ends[..n]);
      StaysOpenOnly(h, starts[n], ends[n], r);
      TotalNeverRises(h, ends[n - 1], starts[n], r);
    }
    TotalAtMostFourEach(h[starts[0]], r);
  }

  lemma PassEnds(h: seq<State>, i: nat, j: nat, r: RunId)
    requires PassMade(h, i, j, r)
    ensures i < j < |h| && r in h[i].runs && r in h[j].runs
  {
  }

  lemma TotalAtMostFourEach(s: State, r: RunId)
    requires r in s.runs
    ensures Total(s, r) <= 4 * |s.runs[r].config.order|
  {
    AtMostFourEach(s.jobs, r, s.runs[r], |s.runs[r].config.order|);
  }

  /** A pass after expiry, or without permission, leaves the run neither publishing nor running. */
  lemma ExpiryEndsThePass(h: seq<State>, k: nat, r: RunId, now: Time, error: ErrorCode)
    requires History(h) && k < |h| && Enabled(h[k], SaveExpired(r, error), now)
    ensures var run := Effect(h[k], SaveExpired(r, error), now).runs[r];
            && run.status != Publishing && run.status != Running
            && (run.status == RunUncertain
                <==> exists j :: j in h[k].jobs && h[k].jobs[j].run == r && HoldsTarget(h[k].jobs[j]))
  {
    hide History, AllRunsOk, AllJobsOk, Exclusive, OneAfterAnother, DeliveredOk, RootsOwned, RunOk, Expired, JobsUnique;
    var s := h[k];
    EveryStateIsSound(h, k);
    RunOf(s, r);
    ExpiredShape(s, r, now, error);
    if j :| j in s.jobs && s.jobs[j].run == r && HoldsTarget(s.jobs[j]) {
      JobOf(s, j);
      ExpiredKeepsTargets(s, r, now, error, j);
    }
  }

  lemma ExpiredShape(s: State, r: RunId, now: Time, error: ErrorCode)
    requires r in s.runs && RunOk(s, r) && (s.runs[r].status == Publishing || s.runs[r].status == Running)
    ensures var run := Expired(s.jobs, r, s.runs[r], now, error);
            && run.status != Publishing && run.status != Running
            && (run.status == RunUncertain ==> exists j :: j in s.jobs && s.jobs[j].run == r && HoldsTarget(s.jobs[j]))
  {
    hide ValidConfig, PartOk;
    var parts := Expired(s.jobs, r, s.runs[r], now, error).parts;
    if c :| c in parts && parts[c].status == PartUncertain {
      assert s.runs[r].parts[c].status != PartUncertain;
      var j :| j in s.jobs && Is(s.jobs[j], r, c, DeployJob) && (s.jobs[j].status == Working || s.jobs[j].status == JobUncertain);
      assert HoldsTarget(s.jobs[j]);
    }
  }
}
