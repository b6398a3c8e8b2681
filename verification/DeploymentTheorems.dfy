/** What the orchestrator promises about every reachable state and every history, crashes included. */
module DeploymentTheorems {
  import opened Basics
  import opened DeploymentModel
  import opened DeploymentInvariant
  import opened DeploymentSteps

  // ---------- Histories ----------

  ghost predicate Next(s: State, t: State) {
    exists a, now :: Enabled(s, a, now) && t == Effect(s, a, now)
  }

  /** The durable states of a store, one per write. A crash may follow any of them: the next write starts from it. */
  ghost predicate History(h: seq<State>) {
    && h != [] && h[0] == EMPTY
    && forall i :: 0 <= i < |h| - 1 ==> Next(h[i], h[i + 1])
  }

  lemma {:induction false} EveryStateIsSound(h: seq<State>, i: nat)
    requires History(h) && i < |h|
    ensures Inv(h[i])
  {
    hide Inv, Later;
    if i == 0 {
      EmptyIsSound();
    } else {
      EveryStateIsSound(h, i - 1);
      assert Next(h[i - 1], h[i - 1 + 1]);
      var a, now :| Enabled(h[i - 1], a, now) && h[i] == Effect(h[i - 1], a, now);
      StepKeeps(h[i - 1], a, now);
    }
  }

  lemma {:induction false} NothingIsForgotten(h: seq<State>, i: nat, k: nat)
    requires History(h) && i <= k < |h|
    ensures Later(h[i], h[k])
    decreases k
  {
    hide Inv, Effect, Enabled;
    if i < k {
      NothingIsForgotten(h, i, k - 1);
      EveryStateIsSound(h, k - 1);
      assert Next(h[k - 1], h[k - 1 + 1]);
      var a, now :| Enabled(h[k - 1], a, now) && h[k] == Effect(h[k - 1], a, now);
      StepKeeps(h[k - 1], a, now);
      LaterTransitive(h[i], h[k - 1], h[k]);
    }
  }

  // ---------- Mutual exclusion on destinations ----------

  /** Deploy work that may have touched a destination binding is the only such work on that binding. */
  lemma OneDeploymentPerTarget(h: seq<State>, k: nat, i: JobId, j: JobId)
    requires History(h) && k < |h| && i in h[k].jobs && j in h[k].jobs
    requires HoldsTarget(h[k].jobs[i]) && HoldsTarget(h[k].jobs[j])
    requires h[k].jobs[i].executor == h[k].jobs[j].executor && h[k].jobs[i].binding == h[k].jobs[j].binding
    ensures i == j
  {
    hide History, AllRunsOk, AllJobsOk, OneAfterAnother, DeliveredOk, RootsOwned, Provenance, Exclusive;
    var s := h[k];
    EveryStateIsSound(h, k);
    JobOf(s, i);
    JobOf(s, j);
    PartOf(s, s.jobs[i].run, s.jobs[i].component);
    PartOf(s, s.jobs[j].run, s.jobs[j].component);
    var p, q := s.runs[s.jobs[i].run], s.runs[s.jobs[j].run];
    assert Target(p.config.specs[s.jobs[i].component]) == Target(q.config.specs[s.jobs[j].component]);
    SharedTargetSameRun(s.runs, s.jobs[i].run, s.jobs[j].run, s.jobs[i].component, s.jobs[j].component);
    DestinationAssigned(s.executors, p.config.specs[s.jobs[i].component]);
    assert s.jobs[i].component == s.jobs[j].component;
  }

  lemma SharedTargetSameRun(runs: map<RunId, Run>, p: RunId, q: RunId, c: ComponentId, d: ComponentId)
    requires Exclusive(runs) && p in runs && q in runs && Unfinished(runs[p]) && Unfinished(runs[q])
    requires c in runs[p].parts && c in runs[p].config.specs && d in runs[q].parts && d in runs[q].config.specs
    requires Target(runs[p].config.specs[c]) == Target(runs[q].config.specs[d])
    ensures p == q
  {
  }

  lemma DestinationAssigned(executors: map<ExecutorId, Executor>, spec: Spec)
    requires RootsOwned(executors) && Equipped(executors, spec, DeployJob)
    ensures spec.destination != UNASSIGNED
  {
  }

  /** While it is unresolved, no run that selects its destination, and no run of its project, can start. */
  lemma TargetLockIsHeld(h: seq<State>, k: nat, j: JobId, r: RunId, run: Run, now: Time)
    requires History(h) && k < |h| && j in h[k].jobs && HoldsTarget(h[k].jobs[j])
    requires run.parts.Keys <= run.config.specs.Keys
    requires run.config.profile == h[k].jobs[j].profile
          || exists c :: c in run.parts && Target(run.config.specs[c]) == (h[k].jobs[j].executor, h[k].jobs[j].binding)
    ensures !MayAddRun(h[k], r, run, now)
  {
    hide History, AllRunsOk, AllJobsOk, OneAfterAnother, DeliveredOk, RootsOwned, Provenance, NewPart, Equipped;
    var s := h[k];
    EveryStateIsSound(h, k);
    JobOf(s, j);
    PartOf(s, s.jobs[j].run, s.jobs[j].component);
    assert Busy(s.runs[s.jobs[j].run], run.config, run.parts.Keys);
  }

  /** A run that is over has no uncertain deploy work. */
  lemma EndedRunsHoldNothing(h: seq<State>, k: nat, j: JobId)
    requires History(h) && k < |h| && j in h[k].jobs
    ensures h[k].jobs[j].run in h[k].runs && (!Unfinished(h[k].runs[h[k].jobs[j].run]) ==> !HoldsTarget(h[k].jobs[j]))
  {
    hide History, AllRunsOk, AllJobsOk, OneAfterAnother, DeliveredOk, RootsOwned;
    EveryStateIsSound(h, k);
    JobOf(h[k], j);
  }

  /** A job left queued when its run stopped is never handed out, whatever happens later. */
  lemma {:induction false} LeftoversAreNeverClaimed(h: seq<State>, i: nat, k: nat, j: JobId)
    requires History(h) && i <= k < |h|
    requires j in h[i].jobs && h[i].jobs[j].status == Queued && h[i].jobs[j].run in h[i].runs
    requires var status := h[i].runs[h[i].jobs[j].run].status; status != Publishing && status != Running
    ensures j in h[k].jobs && h[k].jobs[j] == h[i].jobs[j]
    decreases k
  {
    hide Inv, Enabled, Effect, Later;
    if i < k {
      LeftoversAreNeverClaimed(h, i, k - 1, j);
      NothingIsForgotten(h, i, k - 1);
      StoppedStays(h[i], h[k - 1], h[i].jobs[j].run);
      assert Next(h[k - 1], h[k - 1 + 1]);
      var a, now :| Enabled(h[k - 1], a, now) && h[k] == Effect(h[k - 1], a, now);
      LeftoverUntouched(h[k - 1], a, now, j);
    }
  }

  lemma StoppedStays(s: State, t: State, r: RunId)
    requires Later(s, t) && r in s.runs && s.runs[r].status != Publishing && s.runs[r].status != Running
    ensures r in t.runs && t.runs[r].status != Publishing && t.runs[r].status != Running
  {
    assert RunLater(s.runs[r], t.runs[r]);
  }

  lemma LeftoverUntouched(s: State, a: Action, now: Time, j: JobId)
    requires Enabled(s, a, now) && j in s.jobs && s.jobs[j].status == Queued && s.jobs[j].run in s.runs
    requires s.runs[s.jobs[j].run].status != Publishing && s.runs[s.jobs[j].run].status != Running
    ensures j in Effect(s, a, now).jobs && Effect(s, a, now).jobs[j] == s.jobs[j]
  {
    hide MayAddJob, MayAddRun, MaySavePass, MayClose, MayBind, ValidConfig;
    FreshKeys(s, a, now, j);
  }

  lemma FreshKeys(s: State, a: Action, now: Time, j: JobId)
    requires Enabled(s, a, now) && j in s.jobs
    ensures a.AddJob? ==> a.j != j
  {
  }

  // ---------- Dependencies ----------

  /** A chain of in-run dependencies, each link pointing at something the previous one depends on. */
  ghost predicate Chain(run: Run, path: seq<ComponentId>) {
    && path != []
    && (forall i :: 0 <= i < |path| ==> path[i] in run.parts && path[i] in run.config.specs)
    && forall i :: 0 <= i < |path| - 1 ==> path[i + 1] in InRun(run, path[i])
  }

  /** Work on a component exists only once everything it depends on, however far down, has been deployed. */
  lemma {:induction false} WorkFollowsDependencies(h: seq<State>, i: nat, j: JobId, path: seq<ComponentId>)
    requires History(h) && i < |h| && j in h[i].jobs && h[i].jobs[j].run in h[i].runs
    requires Chain(h[i].runs[h[i].jobs[j].run], path) && |path| > 1 && path[0] == h[i].jobs[j].component
    ensures Deployed(h[i].jobs, h[i].jobs[j].run, path[|path| - 1])
    decreases |path|
  {
    hide History, AllRunsOk, Exclusive, OneAfterAnother, DeliveredOk, RootsOwned;
    var s := h[i];
    EveryStateIsSound(h, i);
    var r := s.jobs[j].run;
    assert path[1] in InRun(s.runs[r], path[0]);
    assert JobOk(s, s.jobs[j]);
    if |path| > 2 {
      var k :| k in s.jobs && Is(s.jobs[k], r, path[1], DeployJob) && s.jobs[k].status == JobSucceeded;
      var rest := path[1..];
      assert Chain(s.runs[r], rest) by {
        forall i | 0 <= i < |rest| - 1 ensures rest[i + 1] in InRun(s.runs[r], rest[i]) {
          assert path[i + 1 + 1] in InRun(s.runs[r], path[i + 1]);
        }
      }
      WorkFollowsDependencies(h, i, k, rest);
      assert rest[|rest| - 1] == path[|path| - 1];
    }
  }

  ghost predicate Cause(status: PartStatus) {
    status == PartFailed || status == PartUncertain
  }

  lemma BlockedBy(s: State, r: RunId, i: nat) returns (d: ComponentId, k: nat)
    requires Inv(s) && r in s.runs && i < |s.runs[r].config.order|
    requires var c := s.runs[r].config.order[i]; c in s.runs[r].parts && s.runs[r].parts[c].status == Blocked
    ensures s.runs[r].config.order[i] in s.runs[r].config.specs && d in s.runs[r].config.specs
    ensures d in InRun(s.runs[r], s.runs[r].config.order[i]) && Bad(s.runs[r].parts[d].status)
    ensures k < i && s.runs[r].config.order[k] == d
  {
    hide AllRunsOk, AllJobsOk, Exclusive, OneAfterAnother, DeliveredOk, RootsOwned, Provenance, Equipped;
    var run := s.runs[r];
    var c := run.config.order[i];
    PartOf(s, r, c);
    d :| d in InRun(run, c) && Bad(run.parts[d].status);
    assert d in run.config.order[..i];
    k :| 0 <= k < i && run.config.order[k] == d;
  }

  /** Every blocked component can name the failed or uncertain component it waits for. */
  lemma {:induction false} BlockedHasCause(h: seq<State>, n: nat, r: RunId, i: nat) returns (path: seq<ComponentId>)
    requires History(h) && n < |h| && r in h[n].runs && i < |h[n].runs[r].config.order|
    requires var run := h[n].runs[r]; run.config.order[i] in run.parts && run.parts[run.config.order[i]].status == Blocked
    ensures Chain(h[n].runs[r], path) && path[0] == h[n].runs[r].config.order[i]
    ensures Cause(h[n].runs[r].parts[path[|path| - 1]].status)
    decreases i
  {
    hide History, Inv, ValidConfig;
    EveryStateIsSound(h, n);
    var run := h[n].runs[r];
    var c := run.config.order[i];
    var d, k := BlockedBy(h[n], r, i);
    if run.parts[d].status == Blocked {
      var rest := BlockedHasCause(h, n, r, k);
      path := [c] + rest;
      forall m | 0 <= m < |path| - 1 ensures path[m + 1] in InRun(run, path[m]) {
        if m > 0 {
          assert rest[m - 1 + 1] in InRun(run, rest[m - 1]);
        }
      }
    } else {
      path := [c, d];
    }
  }

  // ---------- Artifacts ----------

  /** What a destination is told to run was built, from the same source, by the run the release names. */
  lemma DeployedArtifactWasBuilt(h: seq<State>, k: nat, j: JobId) returns (o: RunId, b: JobId)
    requires History(h) && k < |h| && j in h[k].jobs && h[k].jobs[j].kind == DeployJob
    ensures b in h[k].jobs && Is(h[k].jobs[b], o, h[k].jobs[j].component, BuildJob) && h[k].jobs[b].status == JobSucceeded
    ensures h[k].jobs[b].output == Some(h[k].jobs[j].input) && h[k].jobs[b].sourceHead == h[k].jobs[j].sourceHead
    ensures o in h[k].runs && h[k].runs[o].body.operation == Operation.Deploy
    ensures o in h[k].runs && h[k].jobs[j].run in h[k].runs && h[k].jobs[j].component in h[k].runs[h[k].jobs[j].run].parts
         && h[k].runs[h[k].jobs[j].run].parts[h[k].jobs[j].component].release == Some(o)
    ensures o != h[k].jobs[j].run ==> IsOrigin(h[k], o, h[k].jobs[j].profile, h[k].jobs[j].component, h[k].jobs[j].input)
  {
    hide History, AllRunsOk, AllJobsOk, Exclusive, OneAfterAnother, DeliveredOk, RootsOwned;
    var s := h[k];
    EveryStateIsSound(h, k);
    var job := s.jobs[j];
    JobOf(s, j);
    PartOf(s, job.run, job.component);
    o := s.runs[job.run].parts[job.component].release.value;
    b :| b in s.jobs && Is(s.jobs[b], o, job.component, BuildJob) && s.jobs[b].status == JobSucceeded
         && s.jobs[b].output == Some(job.input);
    JobOf(s, b);
  }

  /** Every job's component is part of its run, and the job was told what its component's previous release deployed. */
  ghost predicate Informed(s: State, j: JobId)
    requires j in s.jobs
  {
    && s.jobs[j].run in s.runs && s.jobs[j].component in s.runs[s.jobs[j].run].parts
    && Replaces(s.jobs, s.runs[s.jobs[j].run].parts[s.jobs[j].component], s.jobs[j].component, s.jobs[j].previous)
  }

  lemma InformedStays(s: State, t: State, j: JobId)
    requires Later(s, t) && j in s.jobs && Informed(s, j)
    ensures j in t.jobs && Informed(t, j)
  {
    var r, c := s.jobs[j].run, s.jobs[j].component;
    assert JobLater(s.jobs[j], t.jobs[j]) && RunLater(s.runs[r], t.runs[r]) && PartLater(s.runs[r].parts[c], t.runs[r].parts[c]);
    if s.runs[r].parts[c].previous.Some? {
      var q := s.runs[r].parts[c].previous.value;
      var d :| d in s.jobs && Is(s.jobs[d], q, c, DeployJob) && s.jobs[d].status == JobSucceeded
               && s.jobs[j].previous == Some(s.jobs[d].input);
      assert JobLater(s.jobs[d], t.jobs[d]);
    }
  }

  lemma NewJobIsInformed(s: State, a: Action, now: Time, j: JobId)
    requires Enabled(s, a, now) && j !in s.jobs && j in Effect(s, a, now).jobs
    ensures Informed(Effect(s, a, now), j)
  {
    hide MayAddRun, MaySavePass, MayClose, MayBind, ValidConfig, Serves;
    assert a.AddJob? && a.j == j;
    var t, part := Effect(s, a, now), s.runs[a.job.run].parts[a.job.component];
    if part.previous.Some? {
      var d :| d in s.jobs && Is(s.jobs[d], part.previous.value, a.job.component, DeployJob)
               && s.jobs[d].status == JobSucceeded && a.job.previous == Some(s.jobs[d].input);
      assert t.jobs[d] == s.jobs[d];
    }
  }

  lemma {:induction false} EveryJobIsInformed(h: seq<State>, k: nat, j: JobId)
    requires History(h) && k < |h| && j in h[k].jobs
    ensures Informed(h[k], j)
  {
    hide History, Informed, Effect, Enabled, Later, Inv;
    if k == 0 {
      NoJobsAtFirst(h);
    } else {
      var a, now := StepOf(h, k - 1);
      if j in h[k - 1].jobs {
        EveryJobIsInformed(h, k - 1, j);
        NothingIsForgotten(h, k - 1, k);
        InformedStays(h[k - 1], h[k], j);
      } else {
        NewJobIsInformed(h[k - 1], a, now, j);
      }
    }
  }

  lemma NoJobsAtFirst(h: seq<State>)
    requires History(h)
    ensures h[0].jobs == map[]
  {
  }

  lemma StepOf(h: seq<State>, i: nat) returns (a: Action, now: Time)
    requires History(h) && i + 1 < |h|
    ensures Enabled(h[i], a, now) && h[i + 1] == Effect(h[i], a, now)
  {
    assert Next(h[i], h[i + 1]);
    a, now :| Enabled(h[i], a, now) && h[i + 1] == Effect(h[i], a, now);
  }

  /**
   A worker is told exactly the artifact that the destination last took for the release its run replaces, and
   nothing when the run replaces none.
   */
  lemma JobsKnowWhatTheyReplace(h: seq<State>, k: nat, j: JobId)
    requires History(h) && k < |h| && j in h[k].jobs
    ensures h[k].jobs[j].run in h[k].runs && h[k].jobs[j].component in h[k].runs[h[k].jobs[j].run].parts
    ensures var job := h[k].jobs[j];
            var previous := h[k].runs[job.run].parts[job.component].previous;
            && (previous.None? ==> job.previous.None?)
            && (previous.Some? ==> Deployed(h[k].jobs, previous.value, job.component))
            && forall d :: d in h[k].jobs && previous.Some? && Is(h[k].jobs[d], previous.value, job.component, DeployJob)
                 ==> job.previous == Some(h[k].jobs[d].input)
  {
    hide History, AllRunsOk, AllJobsOk, Exclusive, OneAfterAnother, DeliveredOk, RootsOwned;
    EveryStateIsSound(h, k);
    EveryJobIsInformed(h, k, j);
  }

  /** Rolling back a rollback returns to the artifact and release one started from, at any later point. */
  lemma RollbackTwice(h: seq<State>, i: nat, k: nat, first: RunId, second: RunId, back: Run, again: Run, r: RunId,
                      c: ComponentId)
    requires History(h) && i < k < |h|
    requires MayAddRun(h[i], first, back, h[i + 1].clock) && h[i + 1].runs == h[i].runs[first := back]
    requires back.body.operation == Rollback && c in back.parts && back.parts[c].previous == Some(r)
    requires MayAddRun(h[k], second, again, h[k].clock)
    requires again.body.operation == Rollback && c in again.parts && again.parts[c].previous == Some(first)
    ensures r in h[i].runs && c in h[i].runs[r].parts
    ensures again.parts[c].artifact == h[i].runs[r].parts[c].artifact && again.parts[c].artifact.Some?
    ensures again.parts[c].release == h[i].runs[r].parts[c].release
  {
    hide Inv, Later, NewPart, MayAddRun, Next;
    assert NewPart(h[i], back, c) && NewPart(h[k], again, c) && h[i + 1].runs[first] == back by {
      StartsParts(h[i], first, back, h[i + 1].clock, c);
      StartsParts(h[k], second, again, h[k].clock, c);
    }
    NothingIsForgotten(h, i, k);
    NothingIsForgotten(h, i + 1, k);
    EveryStateIsSound(h, i);
    RollsBackTo(h[i], h[i + 1], h[k], first, back, again, r, c);
    HasRelease(h[i], r, c);
  }

  lemma StartsParts(s: State, r: RunId, run: Run, now: Time, c: ComponentId)
    requires MayAddRun(s, r, run, now) && c in run.parts
    ensures NewPart(s, run, c)
  {
  }

  lemma RollsBackTo(s: State, t: State, u: State, first: RunId, back: Run, again: Run, r: RunId, c: ComponentId)
    requires Later(s, u) && Later(t, u)
    requires first in t.runs && t.runs[first] == back && c in back.parts && c in again.parts
    requires NewPart(s, back, c) && back.body.operation == Rollback && back.parts[c].previous == Some(r)
    requires NewPart(u, again, c) && again.body.operation == Rollback && again.parts[c].previous == Some(first)
    ensures SucceededIn(s, r, back.config.profile, c)
    ensures again.parts[c].artifact == s.runs[r].parts[c].artifact
    ensures s.runs[r].parts[c].release.Some? ==> again.parts[c].release == s.runs[r].parts[c].release
  {
    LaterParts(s, u);
    SucceededStays(s, u, r, back.config.profile, c);
    assert RunLater(t.runs[first], u.runs[first]);
    assert PartLater(back.parts[c], u.runs[first].parts[c]);
  }

  lemma HasRelease(s: State, r: RunId, c: ComponentId)
    requires Inv(s) && r in s.runs && c in s.runs[r].parts && s.runs[r].parts[c].status == PartSucceeded
    ensures s.runs[r].parts[c].artifact.Some? && s.runs[r].parts[c].release.Some?
  {
    hide AllRunsOk, AllJobsOk, Exclusive, OneAfterAnother, DeliveredOk, RootsOwned;
    PartOf(s, r, c);
    var j :| j in s.jobs && Is(s.jobs[j], r, c, DeployJob) && s.jobs[j].status == JobSucceeded;
    JobOf(s, j);
  }

  // ---------- The current release is what was last delivered ----------

  ghost predicate ProfileIdle(s: State, profile: ProfileId) {
    forall r :: r in s.runs && s.runs[r].config.profile == profile ==> !Unfinished(s.runs[r])
  }

  /** Once a project is idle, its successful components are exactly those whose destination reported success. */
  lemma SucceededMeansDeployed(h: seq<State>, k: nat, profile: ProfileId, r: RunId, c: ComponentId)
    requires History(h) && k < |h| && ProfileIdle(h[k], profile) && r in h[k].runs && h[k].runs[r].config.profile == profile
    ensures Candidate(h[k].runs, r, profile, c) <==> Deployed(h[k].jobs, r, c)
  {
    hide History, AllRunsOk, AllJobsOk, Exclusive, OneAfterAnother, DeliveredOk, RootsOwned, Provenance, Equipped, ValidConfig;
    var s := h[k];
    EveryStateIsSound(h, k);
    RunOf(s, r);
    if Deployed(s.jobs, r, c) {
      var j :| j in s.jobs && Is(s.jobs[j], r, c, DeployJob) && s.jobs[j].status == JobSucceeded;
      JobOf(s, j);
    }
    if c in s.runs[r].parts {
      PartOf(s, r, c);
    }
  }

  /** Two releases of a component that the newest-first order cannot tell apart. */
  ghost predicate Tied(s: State, profile: ProfileId, c: ComponentId, d: RunId)
    requires d in s.runs
  {
    exists r :: r != d && Candidate(s.runs, r, profile, c)
             && s.runs[r].updated == s.runs[d].updated && s.runs[r].created == s.runs[d].created
  }

  /** In an idle project the current release is the last delivered one, unless two runs share both instants. */
  lemma CurrentIsLastDelivered(h: seq<State>, k: nat, listing: seq<RunId>, profile: ProfileId, c: ComponentId)
    requires History(h) && k < |h| && ProfileIdle(h[k], profile) && Lists(listing, h[k].runs.Keys)
    ensures Current(h[k].runs, listing, profile, c).None? <==> (profile, c) !in h[k].delivered
    ensures (profile, c) in h[k].delivered ==>
              var d := h[k].delivered[(profile, c)];
              d in h[k].runs && (!Tied(h[k], profile, c, d) ==> Current(h[k].runs, listing, profile, c) == Some(d))
    ensures (profile, c) in h[k].delivered ==>
              var d := h[k].delivered[(profile, c)];
              Tied(h[k], profile, c, d) ==> h[k].runs[d].created == h[k].runs[d].updated
  {
    hide History, AllRunsOk, AllJobsOk, Exclusive, RootsOwned, JobsUnique, OneAfterAnother;
    var s := h[k];
    EveryStateIsSound(h, k);
    forall r | r in s.runs && s.runs[r].config.profile == profile
      ensures Candidate(s.runs, r, profile, c) <==> Deployed(s.jobs, r, c)
      ensures s.runs[r].created <= s.runs[r].updated
    {
      SucceededMeansDeployed(h, k, profile, r, c);
      RunOf(s, r);
    }
    if (profile, c) in s.delivered {
      var d := s.delivered[(profile, c)];
      assert LastDelivery(s, profile, c, d);
      assert Candidate(s.runs, d, profile, c) && d in listing;
    }
  }

  ghost function SortedOut(rest: set<RunId>): (listing: seq<RunId>)
    ensures Lists(listing, rest)
  {
    if rest == {} then [] else
      var x :| x in rest;
      assert rest == {x} + (rest - {x});
      [x] + SortedOut(rest - {x})
  }

  /** The condition is exact: with a tie, some directory order shows the other run as current. */
  lemma TieMisleads(h: seq<State>, k: nat, profile: ProfileId, c: ComponentId) returns (listing: seq<RunId>)
    requires History(h) && k < |h| && ProfileIdle(h[k], profile) && (profile, c) in h[k].delivered
    requires h[k].delivered[(profile, c)] in h[k].runs && Tied(h[k], profile, c, h[k].delivered[(profile, c)])
    ensures Lists(listing, h[k].runs.Keys)
    ensures Current(h[k].runs, listing, profile, c) != Some(h[k].delivered[(profile, c)])
  {
    hide History, Inv;
    var s := h[k];
    EveryStateIsSound(h, k);
    var d := s.delivered[(profile, c)];
    var r :| r != d && Candidate(s.runs, r, profile, c)
             && s.runs[r].updated == s.runs[d].updated && s.runs[r].created == s.runs[d].created;
    listing := [r] + SortedOut(s.runs.Keys - {r});
    FirstWins(s.runs, listing, profile, c, d, |listing|);
    assert listing[..|listing|] == listing;
  }

  lemma {:induction false} FirstWins(runs: map<RunId, Run>, listing: seq<RunId>, profile: ProfileId, c: ComponentId, d: RunId, n: nat)
    requires 1 <= n <= |listing| && Distinct(listing) && listing[0] != d && d in runs
    requires Candidate(runs, listing[0], profile, c)
    requires !SortsBefore(runs[d], runs[listing[0]])
    ensures Current(runs, listing[..n], profile, c) != Some(d)
  {
    var prefix := listing[..n];
    if n > 1 {
      assert prefix[..n - 1] == listing[..n - 1];
      FirstWins(runs, listing, profile, c, d, n - 1);
      assert listing[0] in listing[..n - 1];
    }
  }

  // ---------- Destination roots ----------

  /** A path lies under a root when its unified form begins with the root's. */
  predicate Under(path: string, root: string) {
    Prefix(Normalized(root), Normalized(path))
  }

  lemma PrefixesAreComparable(a: string, b: string, path: string)
    requires Prefix(a, path) && Prefix(b, path)
    ensures Prefix(a, b) || Prefix(b, a)
  {
    if |a| <= |b| {
      assert b[..|a|] == path[..|a|];
    } else {
      assert a[..|b|] == path[..|b|];
    }
  }

  /** The enrollment check refuses exactly the roots that some path would share. */
  lemma OverlapMeansSharedPath(a: string, b: string)
    ensures Overlap(a, b) <==> exists path :: Under(path, a) && Under(path, b)
  {
    hide Normalized;
    if Overlap(a, b) {
      assert Under(a, a) && Under(b, b);
      assert (Under(a, a) && Under(a, b)) || (Under(b, a) && Under(b, b));
    }
    if path :| Under(path, a) && Under(path, b) {
      PrefixesAreComparable(Normalized(a), Normalized(b), Normalized(path));
    }
  }

  /** No path lies under roots of two different active destination executors of one system. */
  lemma OneOwnerPerPath(h: seq<State>, i: nat, d: ExecutorId, e: ExecutorId, system: string, a: string, b: string,
                        path: string)
    requires History(h) && i < |h| && d in h[i].executors && e in h[i].executors
    requires Owns(h[i].executors[d], system, a) && Owns(h[i].executors[e], system, b)
    requires Under(path, a) && Under(path, b)
    ensures d == e
  {
    hide AllRunsOk, AllJobsOk, Exclusive, OneAfterAnother, DeliveredOk, History, Overlap, Owns;
    EveryStateIsSound(h, i);
    OverlapMeansSharedPath(a, b);
  }
}
