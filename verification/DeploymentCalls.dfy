/** What each call of the orchestrator decides, as functions of the records it reads. */
module DeploymentCalls {
  import opened Basics
  import opened DeploymentModel
  import opened DeploymentInvariant
  import opened DeploymentSteps
  import opened DeploymentTheorems
  import opened DeploymentPass
  import opened DeploymentProgress
  import opened ComponentOrder

  lemma Extends1(h: seq<State>, a: Action, now: Time)
    requires History(h) && Enabled(h[|h| - 1], a, now)
    ensures History(h + [Effect(h[|h| - 1], a, now)])
  {
    var longer := h + [Effect(h[|h| - 1], a, now)];
    forall i | 0 <= i < |longer| - 1 ensures Next(longer[i], longer[i + 1]) {
      if i < |h| - 1 {
        assert Next(h[i], h[i + 1]);
      }
    }
  }

  // What the writes of single jobs are, as saves of one record.

  lemma AddJobAsSave(s: State, j: JobId, job: Job)
    requires MayAddJob(s, j, job)
    ensures Enabled(s, AddJob(j, job), s.clock)
    ensures Effect(s, AddJob(j, job), s.clock) == s.(jobs := s.jobs[j := job])
  {
    hide MayAddJob;
  }

  lemma ClaimAsSave(s: State, j: JobId)
    requires j in s.jobs && s.jobs[j].status == Queued && s.clock < s.jobs[j].expires
    requires s.jobs[j].run in s.runs && s.runs[s.jobs[j].run].status == Running
    ensures Enabled(s, ClaimJob(j), s.clock)
    ensures Effect(s, ClaimJob(j), s.clock) == s.(jobs := s.jobs[j := s.jobs[j].(status := Working)])
  {
  }

  lemma CompletionAsSave(s: State, j: JobId, status: JobStatus, error: Option<ErrorCode>)
    requires j in s.jobs && s.jobs[j].status == Working
    requires status == JobSucceeded || status == JobFailed || status == JobUncertain
    requires s.jobs[j].kind == BuildJob && status == JobSucceeded ==> s.jobs[j].output.Some?
    ensures Enabled(s, CompleteJob(j, status, error), s.clock)
    ensures var job := s.jobs[j].(status := status, error := if error.Some? then error else s.jobs[j].error);
            var t := Effect(s, CompleteJob(j, status, error), s.clock);
            t == s.(jobs := s.jobs[j := job], delivered := t.delivered)
  {
  }

  lemma FreshWhenever(s: State, now: Time, run: Run, env: Env)
    requires FreshIds(s, run, env)
    ensures FreshIds(s.(clock := now), run, env)
  {
  }

  lemma CompletionNeeds(s: State, j: JobId, status: JobStatus, error: Option<ErrorCode>)
    requires Enabled(s, CompleteJob(j, status, error), s.clock)
    ensures j in s.jobs && s.jobs[j].status == Working
    ensures status == JobSucceeded || status == JobFailed || status == JobUncertain
    ensures s.jobs[j].kind == BuildJob && status == JobSucceeded ==> s.jobs[j].output.Some?
  {
  }

  lemma SameJob(s: State, r: RunId, c: ComponentId, kind: Kind, j: JobId)
    requires Inv(s) && j in s.jobs && Is(s.jobs[j], r, c, kind)
    ensures HasJob(s.jobs, r, c, kind) && TheJob(s.jobs, r, c, kind) == j
  {
    hide AllRunsOk, AllJobsOk, Exclusive, OneAfterAnother, DeliveredOk, RootsOwned;
  }

  lemma {:induction false} PassPrefix(s: State, r: RunId, n: nat, m: nat, now: Time, env: Env)
    requires Startable(s, r) && n <= m <= |s.runs[r].config.order|
    ensures After(s, r, n, now, env).created <= After(s, r, m, now, env).created
    decreases m
  {
    hide Visit;
    if n < m {
      PassPrefix(s, r, n, m - 1, now, env);
      VisitCreatesAtMostOne(s, r, After(s, r, m - 1, now, env), s.runs[r].config.order[m - 1], now, env);
    }
  }

  lemma CreatedJobIsEnabled(s: State, r: RunId, n: nat, now: Time, env: Env)
    requires Inv(s) && Startable(s, r) && FreshIds(s, Started(s, r), env) && n < |s.runs[r].config.order| && s.clock <= now
    requires var p, q := After(s, r, n, now, env), After(s, r, n + 1, now, env); q.created != p.created
    ensures var p, q := After(s, r, n, now, env), After(s, r, n + 1, now, env);
            && |q.created| == |p.created| + 1
            && var (j, job) := q.created[|p.created|];
            && With(s.jobs, q.created) == With(s.jobs, p.created)[j := job]
            && MayAddJob(s.(jobs := With(s.jobs, p.created), clock := now), j, job)
  {
    hide Inv, Prepare, Visit, FreshIds, MayAddJob;
    var p, q := After(s, r, n, now, env), After(s, r, n + 1, now, env);
    PassCreates(s, r, n, now, env);
    VisitCreates(s, r, p, n, now, env);
    var (j, job) := q.created[|p.created|];
    assert q.created == p.created + [(j, job)];
    WithAppend(s.jobs, p.created, j, job);
  }

  lemma EmptyWith(s: State)
    ensures s.(jobs := With(s.jobs, [])) == s
  {
  }

  // ---------- advance ----------

  /** The answers a call of advance gets from outside: the requester's permission and the source queue's refusal. */
  datatype Turn = Turn(allowed: bool, refusal: Option<ErrorCode>, env: Env)

  /** Queueing a source records it as waiting the first time. */
  function SourceAsked(s: State, r: RunId): State {
    if r in s.sources then s else s.(sources := s.sources[r := Waiting])
  }

  /** The records after a complete call of advance at the instant s.clock. */
  ghost function Advanced(s: State, r: RunId, turn: Turn): State {
    if r !in s.runs then s
    else
      var run, now := s.runs[r], s.clock;
      if run.status != Publishing && run.status != Running then s
      else if !turn.allowed || run.expires <= now
      then s.(runs := s.runs[r := Expired(s.jobs, r, run, now, REQUEST_EXPIRED)])
      else if run.status == Running then AfterPassState(s, r, now, turn.env)
      else if turn.refusal.Some? then s.(runs := s.runs[r := Unpublished(run, now, turn.refusal.value)])
      else
        var t := SourceAsked(s, r);
        match t.sources[r]
        case Waiting => t.(runs := t.runs[r := run.(updated := now)])
        case Refused(error) => t.(runs := t.runs[r := Unpublished(run, now, error)])
        case Published(_) => AfterPassState(t, r, now, turn.env)
  }

  /** A call of advance that gets as far as the components is a whole pass in the sense of `RunsEnd`. */
  lemma AdvanceIsAPass(h: seq<State>, i: nat, j: nat, r: RunId, turn: Turn)
    requires History(h) && i < j < |h| && Startable(h[i], r) && FreshIds(h[i], h[i].runs[r], turn.env)
    requires turn.allowed && turn.refusal.None? && h[i].clock < h[i].runs[r].expires
    requires h[j] == Advanced(h[i], r, turn)
    ensures PassMade(h, i, j, r)
  {
    hide History, Inv, Visit, FreshIds;
    EveryStateIsSound(h, i);
    SameIds(h[i], r, turn.env);
    CreatedAreFresh(h[i], r, h[i].clock, turn.env);
    PassIsWritten(h[i], r, h[i].clock, turn.env);
    assert IsPass(h[i], h[j], r, h[i].clock, turn.env);
  }

  lemma SameIds(s: State, r: RunId, env: Env)
    requires Startable(s, r) && FreshIds(s, s.runs[r], env)
    ensures FreshIds(s, Started(s, r), env)
  {
  }

  lemma PassIsWritten(s: State, r: RunId, now: Time, env: Env)
    requires Inv(s) && Startable(s, r) && FreshIds(s, Started(s, r), env)
    ensures Written(Pass(s, r, now, env).created, AfterPassState(s, r, now, env).jobs)
  {
    hide Inv, Visit, FreshIds, With;
    var created := Pass(s, r, now, env).created;
    CreatedDistinct(s, r, |s.runs[r].config.order|, now, env);
    WithHolds(s.jobs, created);
  }

  ghost predicate OnceEach(created: seq<(JobId, Job)>) {
    forall a, b :: 0 <= a < b < |created| ==> created[a].0 != created[b].0
  }

  lemma {:induction false} CreatedDistinct(s: State, r: RunId, n: nat, now: Time, env: Env)
    requires Inv(s) && Startable(s, r) && FreshIds(s, Started(s, r), env) && n <= |s.runs[r].config.order|
    ensures OnceEach(After(s, r, n, now, env).created)
    decreases n
  {
    hide Inv, Visit, FreshIds, OnceEach;
    if n > 0 {
      CreatedDistinct(s, r, n - 1, now, env);
      VisitKeepsDistinct(s, r, n - 1, now, env);
    } else {
      NoneCreated();
    }
  }

  lemma NoneCreated()
    ensures OnceEach([])
  {
  }

  lemma VisitKeepsDistinct(s: State, r: RunId, n: nat, now: Time, env: Env)
    requires Inv(s) && Startable(s, r) && FreshIds(s, Started(s, r), env) && n < |s.runs[r].config.order|
    requires OnceEach(After(s, r, n, now, env).created)
    ensures OnceEach(After(s, r, n + 1, now, env).created)
  {
    hide Inv, Visit, Prepare, FreshIds, Reached, OnceEach, HasJob;
    var p, q, c := After(s, r, n, now, env), After(s, r, n + 1, now, env), s.runs[r].config.order[n];
    PassCreates(s, r, n, now, env);
    RunsOf(s);
    OrderOf(s, r);
    VisitCreatesAtMostOne(s, r, p, c, now, env);
    LaterIdDiffers(s, r, p, n, env);
    if q.created != p.created {
      AppendOnce(p.created, q.created);
    }
  }

  lemma AppendOnce(before: seq<(JobId, Job)>, after: seq<(JobId, Job)>)
    requires OnceEach(before) && |after| == |before| + 1 && after[..|before|] == before
    requires forall a :: 0 <= a < |before| ==> before[a].0 != after[|before|].0
    ensures OnceEach(after)
  {
    forall a | 0 <= a < |before| ensures after[a] == before[a] {
      assert after[..|before|][a] == after[a];
    }
  }

  lemma LaterIdDiffers(s: State, r: RunId, p: Progress, n: nat, env: Env)
    requires Startable(s, r) && FreshIds(s, Started(s, r), env) && n < |Started(s, r).config.order|
    requires Distinct(s.runs[r].config.order) && CreatedOk(s, r, Started(s, r), p, n, env)
    ensures var c := s.runs[r].config.order[n];
            c in env.ids ==> forall a :: 0 <= a < |p.created| ==> p.created[a].0 != env.ids[c]
  {
  }

  lemma {:induction false} WithHolds(jobs: map<JobId, Job>, created: seq<(JobId, Job)>)
    requires OnceEach(created)
    ensures forall n :: 0 <= n < |created| ==>
              created[n].0 in With(jobs, created) && With(jobs, created)[created[n].0] == created[n].1
  {
    if created != [] {
      var last := |created| - 1;
      WithHolds(jobs, created[..last]);
      forall n | 0 <= n < last
        ensures created[n].0 in With(jobs, created) && With(jobs, created)[created[n].0] == created[n].1
      {
        assert created[..last][n] == created[n];
      }
    }
  }

  ghost function AdvancedAll(s: State, listing: seq<RunId>, plan: map<RunId, Turn>): State {
    if listing == [] then s
    else
      var before := AdvancedAll(s, listing[..|listing| - 1], plan);
      var r := listing[|listing| - 1];
      if r in plan then Advanced(before, r, plan[r]) else before
  }

  /** Every id a call may give a new job is fresh and given only once. */
  ghost predicate FreshPlan(s: State, plan: map<RunId, Turn>) {
    && (forall r :: r in plan && r in s.runs ==> s.runs[r].config.specs.Keys <= plan[r].env.ids.Keys)
    && (forall r, c :: r in plan && c in plan[r].env.ids ==> plan[r].env.ids[c] !in s.jobs)
    && (forall r, c, q, d ::
          r in plan && c in plan[r].env.ids && q in plan && d in plan[q].env.ids && (r != q || c != d)
          ==> plan[r].env.ids[c] != plan[q].env.ids[d])
  }

  /** The only jobs added are those of this turn. */
  ghost predicate AddsOnly(s: State, t: State, env: Env) {
    && t.runs.Keys == s.runs.Keys
    && (forall r :: r in s.runs ==> t.runs[r].config == s.runs[r].config)
    && forall j :: j in t.jobs ==> j in s.jobs || exists c :: c in env.ids && env.ids[c] == j
  }

  lemma PlanStaysFresh(s: State, t: State, plan: map<RunId, Turn>, r: RunId)
    requires FreshPlan(s, plan) && r in plan && AddsOnly(s, t, plan[r].env)
    ensures FreshPlan(t, plan - {r})
  {
  }

  lemma RunWriteAddsNothing(s: State, t: State, r: RunId, env: Env)
    requires r in s.runs && r in t.runs && t.runs[r].config == s.runs[r].config
    requires t == s.(sources := t.sources, runs := s.runs[r := t.runs[r]])
    ensures AddsOnly(s, t, env)
  {
  }

  lemma AddsOnlyFromSame(s: State, t: State, u: State, env: Env)
    requires t == s.(sources := t.sources) && AddsOnly(t, u, env)
    ensures AddsOnly(s, u, env)
  {
  }

  lemma UniqueJobs(s: State)
    requires Inv(s)
    ensures JobsUnique(s.jobs)
  {
  }

  lemma PassAddsOnly(s: State, t: State, r: RunId, k: nat, now: Time, env: Env)
    requires Inv(s) && Startable(s, r) && FreshIds(s, Started(s, r), env)
    requires k <= |Pass(s, r, now, env).created|
    requires t.jobs == With(s.jobs, Pass(s, r, now, env).created[..k])
    requires t.runs.Keys == s.runs.Keys && forall q :: q in s.runs ==> t.runs[q].config == s.runs[q].config
    ensures AddsOnly(s, t, env)
  {
    hide Inv, Visit;
    PassCreates(s, r, |s.runs[r].config.order|, now, env);
    var created := Pass(s, r, now, env).created;
    forall i | 0 <= i < k ensures created[..k][i].0 !in s.jobs && exists c :: c in env.ids && env.ids[c] == created[..k][i].0 {
      assert created[i].0 == env.ids[created[i].1.component];
    }
    WithAdds(s.jobs, created[..k]);
  }

  lemma PassSaveIsEnabled(s: State, r: RunId, now: Time, env: Env)
    requires Inv(s) && Startable(s, r) && FreshIds(s, Started(s, r), env)
    ensures var p := Pass(s, r, now, env);
            && MaySavePass(s.(jobs := With(s.jobs, p.created), clock := now), r, Saved(p, now), now)
            && Saved(p, now).config == s.runs[r].config
  {
    hide Inv, Visit, With, MaySavePass;
    RunsOf(s);
    OrderOf(s, r);
    PassCreates(s, r, |s.runs[r].config.order|, now, env);
    FreshCreated(s, r, now, env);
    PassMayBeSaved(s, r, Pass(s, r, now, env), now, env);
  }

  lemma FreshCreated(s: State, r: RunId, now: Time, env: Env)
    requires Startable(s, r) && FreshIds(s, Started(s, r), env)
    requires CreatedOk(s, r, Started(s, r), Pass(s, r, now, env), |s.runs[r].config.order|, env)
    ensures forall i :: 0 <= i < |Pass(s, r, now, env).created| ==> Pass(s, r, now, env).created[i].0 !in s.jobs
  {
  }

  // ---------- Replies ----------

  datatype Refusal =
    | AccessDenied | AuthenticationRequired | RequestConflict | RevisionConflict | ComponentNotFound | TargetBusy
    | TestRequired | CurrentConflict | DependencyNotDeployed | RollbackUnavailable | ConnectorOffline
    | JobExpired | JobDenied | JobNotFound | JobConflict | ArtifactConflict
    | RunNotFound | ResolutionDenied | ResolutionConflict | ResolutionUnavailable
    | EnrollmentChanged | DestinationOwned | ProfileNotFound | ProjectBusy | InvalidProject

  /** A call answers, refuses, or is cut short by a write that never happened. */
  datatype Reply<+T> = Done(value: T) | Rejected(why: Refusal) | Died

  /** The checks of `authenticate`, for a credential that names executor e and matches its hash. */
  function AuthenticationProblem(executors: map<ExecutorId, Executor>, e: ExecutorId, permitted: bool, now: Time): Option<Refusal> {
    if e !in executors || !executors[e].active || executors[e].expires <= now then Some(AuthenticationRequired)
    else if !permitted then Some(AccessDenied)
    else None
  }

  function OwnJobProblem(s: State, e: ExecutorId, j: JobId, permitted: bool): Option<Refusal> {
    if AuthenticationProblem(s.executors, e, permitted, s.clock).Some?
    then AuthenticationProblem(s.executors, e, permitted, s.clock)
    else if j !in s.jobs then Some(JobNotFound)
    else if s.jobs[j].executor != e || s.jobs[j].profile != s.executors[e].profile then Some(JobDenied)
    else None
  }

  // ---------- claim ----------

  /** A job that `claim` may pick for executor e. */
  predicate Offered(s: State, j: JobId, e: ExecutorId) {
    j in s.jobs && s.jobs[j].executor == e && s.jobs[j].status == Queued && s.clock < s.jobs[j].expires
  }

  predicate MayWork(s: State, j: JobId, e: ExecutorId, permitted: set<Actor>) {
    && j in s.jobs && s.jobs[j].run in s.runs && e in s.executors
    && s.runs[s.jobs[j].run].status == Running && s.runs[s.jobs[j].run].actor in permitted
  }

  predicate RightExecutor(s: State, j: JobId, e: ExecutorId) {
    && j in s.jobs && e in s.executors && s.executors[e].profile == s.jobs[j].profile
    && s.executors[e].role == if s.jobs[j].kind == BuildJob then Builder else Destination
  }

  /** The answer of `claim` when j is the first job found. */
  function ClaimAnswer(s: State, j: JobId, e: ExecutorId, permitted: set<Actor>): Option<Refusal> {
    if !MayWork(s, j, e, permitted) then Some(JobExpired)
    else if !RightExecutor(s, j, e) then Some(JobDenied)
    else None
  }

  // ---------- complete ----------

  function Reported(job: Job): Digest {
    if job.kind == BuildJob && job.output.Some? then job.output.value else job.input
  }

  /** The artifact a report must name: what the build uploaded, or its input while it has not; for a deployment the part's. */
  ghost predicate Concerns(runs: map<RunId, Run>, job: Job, artifact: Digest) {
    match job.kind
    case BuildJob => artifact == (match job.output case Some(output) => output case None => job.input)
    case DeployJob =>
      && job.run in runs && job.component in runs[job.run].parts
      && runs[job.run].parts[job.component].artifact == Some(artifact)
  }

  lemma ReportedIsConcerned(s: State, j: JobId, artifact: Digest)
    requires Inv(s)
    ensures j in s.jobs ==> (artifact == Reported(s.jobs[j]) <==> Concerns(s.runs, s.jobs[j], artifact))
    ensures j in s.jobs && s.jobs[j].kind == BuildJob && s.jobs[j].status == JobSucceeded ==> s.jobs[j].output.Some?
  {
    hide AllRunsOk, AllJobsOk, Exclusive, OneAfterAnother, DeliveredOk, RootsOwned;
    if j in s.jobs {
      JobOf(s, j);
    }
  }

  lemma PlanForRun(s: State, plan: map<RunId, Turn>, r: RunId)
    requires FreshPlan(s, plan) && r in plan && r in s.runs
    ensures FreshIds(s, s.runs[r], plan[r].env)
  {
  }

  lemma SameRuns(s: State, t: State, env: Env)
    requires AddsOnly(s, t, env)
    ensures t.runs.Keys == s.runs.Keys
  {
  }

  lemma FreshAtAnyTime(s: State, now: Time, plan: map<RunId, Turn>)
    requires FreshPlan(s, plan)
    ensures FreshPlan(s.(clock := now), plan)
  {
  }

  lemma RunOfJob(s: State, j: JobId)
    requires Inv(s) && j in s.jobs
    ensures s.jobs[j].run in s.runs && JobOk(s, s.jobs[j])
  {
    hide AllRunsOk, Exclusive, OneAfterAnother, DeliveredOk, RootsOwned;
  }

  lemma CompletionKeepsIds(s: State, now: Time, j: JobId, status: JobStatus, error: Option<ErrorCode>, env: Env)
    requires j in s.jobs && s.jobs[j].run in s.runs && FreshIds(s, s.runs[s.jobs[j].run], env)
    requires Enabled(s.(clock := now), CompleteJob(j, status, error), now)
    ensures FreshIds(Effect(s.(clock := now), CompleteJob(j, status, error), now), s.runs[s.jobs[j].run], env)
  {
  }

  /** Until it expires, a leftover job is offered in every later state, and whoever finds it first is refused. */
  lemma LeftoverBlocksItsExecutor(h: seq<State>, i: nat, k: nat, j: JobId, e: ExecutorId, permitted: set<Actor>)
    requires History(h) && i <= k < |h|
    requires j in h[i].jobs && h[i].jobs[j].status == Queued && h[i].jobs[j].run in h[i].runs && h[i].jobs[j].executor == e
    requires var status := h[i].runs[h[i].jobs[j].run].status; status != Publishing && status != Running
    ensures Offered(h[k], j, e) <==> h[k].clock < h[i].jobs[j].expires
    ensures Offered(h[k], j, e) ==> ClaimAnswer(h[k], j, e, permitted) == Some(JobExpired)
  {
    hide History, Inv;
    LeftoversAreNeverClaimed(h, i, k, j);
    NothingIsForgotten(h, i, k);
    assert RunLater(h[i].runs[h[i].jobs[j].run], h[k].runs[h[i].jobs[j].run]);
  }

  // ---------- request ----------

  const NATIVE: Recipe := 1

  /** A repeated request agrees with the stored one on every field it supplies, entry by entry and in the same order. */
  predicate SameRequest(prior: Request, body: Request) {
    && prior.profile == body.profile && prior.revision == body.revision && prior.operation == body.operation
    && prior.expected == body.expected && prior.change == body.change
    && (body.component.Some? ==> prior.component == body.component)
    && (body.connector.Some? ==> prior.connector == body.connector)
  }

  function Selected(names: seq<ComponentId>, only: Option<ComponentId>): (chosen: seq<ComponentId>)
    ensures forall c :: c in chosen <==> c in names && (only.Some? ==> c == only.value)
  {
    if names == [] then []
    else (if only.None? || names[0] == only.value then [names[0]] else []) + Selected(names[1..], only)
  }

  predicate Online(executors: map<ExecutorId, Executor>, beats: map<ExecutorId, Time>, e: ExecutorId, now: Time) {
    && e in executors && executors[e].active && now < executors[e].expires
    && e in beats && now - beats[e] >= -5000 && now - beats[e] < 20000
  }

  predicate ReadyFor(executors: map<ExecutorId, Executor>, beats: map<ExecutorId, Time>, e: ExecutorId, role: Role,
                     profile: ProfileId, recipe: Recipe, only: Option<BindingId>, now: Time) {
    && Online(executors, beats, e, now) && executors[e].profile == profile && executors[e].role == role
    && PickBinding(executors[e].bindings, recipe, only).Some?
  }

  predicate SelectsTarget(config: Config, selected: seq<ComponentId>, target: (ExecutorId, BindingId))
    requires forall c :: c in selected ==> c in config.specs
  {
    exists b :: b in selected && Target(config.specs[b]) == target
  }

  predicate HoldsAny(run: Run, config: Config, selected: seq<ComponentId>)
    requires forall c :: c in selected ==> c in config.specs
  {
    && Unfinished(run)
    && (|| run.config.profile == config.profile
        || exists a :: a in run.config.specs && SelectsTarget(config, selected, Target(run.config.specs[a])))
  }

  /** The records a request is decided on, and the instant of the call. */
  datatype View = View(
    runs: map<RunId, Run>, executors: map<ExecutorId, Executor>, profiles: map<ProfileId, Config>, now: Time)

  function ViewOf(s: State): View {
    View(s.runs, s.executors, s.profiles, s.clock)
  }

  /** Why a selected component cannot take part, in the order the checks are made. */
  function ComponentProblem(v: View, beats: map<ExecutorId, Time>, listing: seq<RunId>, config: Config, body: Request,
                            c: ComponentId): Option<Refusal>
    requires c in config.specs
  {
    var spec := config.specs[c];
    var current := Current(v.runs, listing, config.profile, c);
    if (body.operation == Operation.Deploy
        && !ReadyFor(v.executors, beats, spec.builder, Builder, config.profile, spec.recipe, None, v.now))
       || !ReadyFor(v.executors, beats, spec.destination, Destination, config.profile, spec.recipe, Some(spec.binding), v.now)
    then Some(TestRequired)
    else if ExpectedOf(body.expected, c) != Some(current) then Some(CurrentConflict)
    else if body.component.Some? && exists d :: d in spec.deps && Current(v.runs, listing, config.profile, d).None?
    then Some(DependencyNotDeployed)
    else None
  }

  function FirstProblem(v: View, beats: map<ExecutorId, Time>, listing: seq<RunId>, config: Config, body: Request,
                        names: seq<ComponentId>): (problem: Option<Refusal>)
    requires forall c :: c in names ==> c in config.specs
    ensures problem.None? <==> forall c :: c in names ==> ComponentProblem(v, beats, listing, config, body, c).None?
  {
    if names == [] then None
    else
      var first := ComponentProblem(v, beats, listing, config, body, names[0]);
      if first.Some? then first else FirstProblem(v, beats, listing, config, body, names[1..])
  }

  /** The part a component starts with; None when there is nothing to roll back to. */
  function StartingPart(v: View, listing: seq<RunId>, profile: ProfileId, operation: Operation, c: ComponentId): Option<Part> {
    var current := Current(v.runs, listing, profile, c);
    match operation
    case Deploy => Some(Part(Pending, None, current, None, None))
    case Rollback =>
      if current.None? then None
      else
        var older := v.runs[current.value].parts[c].previous;
        if older.None? || older.value !in v.runs || c !in v.runs[older.value].parts then None
        else
          var saved := v.runs[older.value].parts[c];
          if saved.status != PartSucceeded || saved.artifact.None? then None
          else Some(Part(Pending, saved.artifact, current, if saved.release.Some? then saved.release else older, None))
  }

  function StartingParts(v: View, listing: seq<RunId>, profile: ProfileId, operation: Operation, names: seq<ComponentId>)
    : (parts: Option<map<ComponentId, Part>>)
    ensures parts.Some? ==> (forall c :: c in parts.value <==> c in names)
    ensures parts.Some? ==> forall c :: c in names ==> StartingPart(v, listing, profile, operation, c) == Some(parts.value[c])
  {
    if names == [] then Some(map[])
    else
      var last := names[|names| - 1];
      assert forall c :: c in names <==> c in names[..|names| - 1] || c == last;
      var rest := StartingParts(v, listing, profile, operation, names[..|names| - 1]);
      var part := StartingPart(v, listing, profile, operation, last);
      if rest.None? || part.None? then None else Some(rest.value[last := part.value])
  }

  /** What a request not seen before becomes, at the instant v.now. */
  function NewRun(v: View, beats: map<ExecutorId, Time>, listing: seq<RunId>, actor: Actor, body: Request, owner: bool,
                  connected: bool): Result<Run, Refusal>
  {
    if body.profile !in v.profiles || v.profiles[body.profile].archived
       || v.profiles[body.profile].revision != body.revision
    then Err(RevisionConflict)
    else
      var config := v.profiles[body.profile];
      var names := Selected(config.names, body.component);
      if exists c :: c in names && c !in config.specs then Err(RevisionConflict)
      else if names == [] then Err(ComponentNotFound)
      else if (exists c :: c in names && config.specs[c].recipe == NATIVE) && !owner then Err(AccessDenied)
      else if exists q :: q in v.runs && HoldsAny(v.runs[q], config, names) then Err(TargetBusy)
      else
        var problem := FirstProblem(v, beats, listing, config, body, names);
        var parts := StartingParts(v, listing, config.profile, body.operation, names);
        if problem.Some? then Err(problem.value)
        else if parts.None? then Err(RollbackUnavailable)
        else if body.operation == Operation.Deploy && !connected then Err(ConnectorOffline)
        else Ok(Run(actor, body, config, None, if body.operation == Operation.Deploy then Publishing else Running,
                    v.now, v.now, v.now + HOUR, parts.value, None))
  }

  function Answer(v: View, beats: map<ExecutorId, Time>, listing: seq<RunId>, r: RunId, actor: Actor, body: Request,
                  allowed: bool, owner: bool, connected: bool): Result<Run, Refusal>
  {
    if !allowed then Err(AccessDenied)
    else if r in v.runs then
      if v.runs[r].actor == actor && SameRequest(v.runs[r].body, body) then Ok(v.runs[r]) else Err(RequestConflict)
    else NewRun(v, beats, listing, actor, body, owner, connected)
  }

  /** The stored request with the fields that a retry leaves out taken away. */
  function LeavingOut(stored: Request, body: Request): Request {
    stored.(component := if body.component.None? then None else stored.component,
            connector := if body.connector.None? then None else stored.connector)
  }

  /**
   However much later it comes and whatever became of its run, a retry by the requester is answered with the
   run exactly when it is the stored request, field for field and in the same order, except for a component
   or connector it does not mention; any other request with that id is refused.
   */
  lemma RetriesAreAnswered(h: seq<State>, i: nat, k: nat, beats: map<ExecutorId, Time>, listing: seq<RunId>, r: RunId,
                           actor: Actor, body: Request, owner: bool, connected: bool)
    requires History(h) && i <= k < |h| && r in h[i].runs
    ensures r in h[k].runs
    ensures Answer(ViewOf(h[k]), beats, listing, r, actor, body, true, owner, connected)
         == if actor == h[i].runs[r].actor && body == LeavingOut(h[i].runs[r].body, body)
            then Ok(h[k].runs[r]) else Err(RequestConflict)
  {
    hide History;
    NothingIsForgotten(h, i, k);
    assert RunLater(h[i].runs[r], h[k].runs[r]);
  }

  /** The same expectations. */
  ghost predicate SameExpectations(a: Request, b: Request) {
    forall c :: ExpectedOf(a.expected, c) == ExpectedOf(b.expected, c)
  }

  /** Two retries that mean the same: the one that leaves out its component is answered, the reordered one is refused. */
  lemma RetriesThatMeanTheSame(h: seq<State>, i: nat, k: nat, beats: map<ExecutorId, Time>, listing: seq<RunId>, r: RunId,
                               body: Request, owner: bool, connected: bool)
    requires History(h) && i <= k < |h| && r in h[i].runs
    requires body == h[i].runs[r].body.(expected := body.expected)
    requires SameExpectations(body, h[i].runs[r].body) && body.expected != h[i].runs[r].body.expected
    ensures var stored, actor := h[i].runs[r].body, h[i].runs[r].actor;
            && Answer(ViewOf(h[k]), beats, listing, r, actor, body, true, owner, connected) == Err(RequestConflict)
            && Answer(ViewOf(h[k]), beats, listing, r, actor, stored.(component := None), true, owner, connected).Ok?
  {
    var actor, stored := h[i].runs[r].actor, h[i].runs[r].body;
    RetriesAreAnswered(h, i, k, beats, listing, r, actor, body, owner, connected);
    RetriesAreAnswered(h, i, k, beats, listing, r, actor, stored.(component := None), owner, connected);
  }

  /** Every accepted request is an enabled write: its target is free and its parts are what the guards ask for. */
  lemma AcceptedMayBeAdded(s: State, beats: map<ExecutorId, Time>, listing: seq<RunId>, r: RunId, actor: Actor,
                           body: Request, owner: bool, connected: bool)
    requires Inv(s) && r !in s.runs && Lists(listing, s.runs.Keys)
    requires NewRun(ViewOf(s), beats, listing, actor, body, owner, connected).Ok?
    ensures MayAddRun(s, r, NewRun(ViewOf(s), beats, listing, actor, body, owner, connected).value, s.clock)
  {
    hide Inv, ValidConfig, Equipped, NewPart, ComponentProblem, StartingPart;
    var run := NewRun(ViewOf(s), beats, listing, actor, body, owner, connected).value;
    var config, names := run.config, Selected(run.config.names, body.component);
    StoredProfileIsValid(s, body.profile);
    assert names[0] in names && names[0] in run.parts;
    forall q | q in s.runs ensures !Busy(s.runs[q], config, run.parts.Keys) {
      NotHeldNotBusy(s.runs[q], config, names, run.parts.Keys);
    }
    forall c | c in run.parts
      ensures Equipped(s.executors, config.specs[c], DeployJob) && NewPart(s, run, c)
      ensures body.operation == Operation.Deploy ==> Equipped(s.executors, config.specs[c], BuildJob)
    {
      AcceptedPart(s, beats, listing, run, c);
    }
  }

  lemma StoredProfileIsValid(s: State, p: ProfileId)
    requires Inv(s) && p in s.profiles
    ensures ValidConfig(s.profiles[p]) && s.profiles[p].profile == p
  {
    hide AllRunsOk, AllJobsOk, Exclusive, OneAfterAnother, DeliveredOk, RootsOwned, ValidConfig;
  }

  lemma NotHeldNotBusy(run: Run, config: Config, names: seq<ComponentId>, selected: set<ComponentId>)
    requires (forall c :: c in names ==> c in config.specs) && selected <= config.specs.Keys
    requires (forall c :: c in selected <==> c in names) && !HoldsAny(run, config, names)
    ensures !Busy(run, config, selected)
  {
  }

  lemma AcceptedPart(s: State, beats: map<ExecutorId, Time>, listing: seq<RunId>, run: Run, c: ComponentId)
    requires Inv(s) && c in run.parts && c in run.config.specs
    requires ComponentProblem(ViewOf(s), beats, listing, run.config, run.body, c).None?
    requires StartingPart(ViewOf(s), listing, run.config.profile, run.body.operation, c) == Some(run.parts[c])
    ensures Equipped(s.executors, run.config.specs[c], DeployJob) && NewPart(s, run, c)
    ensures run.body.operation == Operation.Deploy ==> Equipped(s.executors, run.config.specs[c], BuildJob)
  {
    hide Inv;
    if run.body.operation == Rollback {
      StartsFromOlder(s, listing, run.config.profile, c);
    }
  }

  lemma StartsFromOlder(s: State, listing: seq<RunId>, profile: ProfileId, c: ComponentId)
    requires Inv(s) && StartingPart(ViewOf(s), listing, profile, Rollback, c).Some?
    ensures var current := Current(s.runs, listing, profile, c).value;
            SucceededIn(s, s.runs[current].parts[c].previous.value, profile, c)
  {
    hide AllRunsOk, AllJobsOk, Exclusive, OneAfterAnother, DeliveredOk, RootsOwned;
    PartOf(s, Current(s.runs, listing, profile, c).value, c);
  }

  lemma {:induction false} NoPartsFromHere(v: View, listing: seq<RunId>, profile: ProfileId, operation: Operation,
                                           names: seq<ComponentId>, n: nat)
    requires n <= |names| && StartingParts(v, listing, profile, operation, names[..n]).None?
    ensures StartingParts(v, listing, profile, operation, names).None?
    decreases |names| - n
  {
    if n == |names| {
      assert names[..n] == names;
    } else {
      assert names[..n + 1][..n] == names[..n];
      NoPartsFromHere(v, listing, profile, operation, names, n + 1);
    }
  }

  ghost predicate FreshFor(jobs: map<JobId, Job>, config: Config, env: Env) {
    && config.specs.Keys <= env.ids.Keys
    && (forall c :: c in env.ids ==> env.ids[c] !in jobs)
    && forall c, d :: c in env.ids && d in env.ids && c != d ==> env.ids[c] != env.ids[d]
  }

  lemma FreshForRun(s: State, run: Run, env: Env)
    requires FreshFor(s.jobs, run.config, env)
    ensures FreshIds(s, run, env)
  {
  }

  lemma StoredNames(s: State)
    requires Inv(s)
    ensures forall p :: p in s.profiles ==> Lists(s.profiles[p].names, s.profiles[p].specs.Keys)
  {
    hide AllRunsOk, AllJobsOk, Exclusive, OneAfterAnother, DeliveredOk, RootsOwned;
  }

  lemma AcceptedConfig(v: View, beats: map<ExecutorId, Time>, listing: seq<RunId>, actor: Actor, body: Request,
                       owner: bool, connected: bool)
    requires NewRun(v, beats, listing, actor, body, owner, connected).Ok?
    ensures body.profile in v.profiles
    ensures NewRun(v, beats, listing, actor, body, owner, connected).value.config == v.profiles[body.profile]
  {
  }

  lemma AllKnown(profiles: map<ProfileId, Config>, body: Request)
    requires body.profile in profiles ==> Lists(profiles[body.profile].names, profiles[body.profile].specs.Keys)
    ensures body.profile in profiles ==>
              var config := profiles[body.profile];
              forall c :: c in Selected(config.names, body.component) ==> c in config.specs
  {
  }

  // ---------- Closing an interrupted build ----------

  ghost function ClosedBut(jobs: map<JobId, Job>, r: RunId, open: set<JobId>): map<JobId, Job> {
    map j | j in jobs ::
      if j !in open && jobs[j].run == r && jobs[j].status == JobUncertain
      then jobs[j].(status := JobFailed, error := Some(BUILD_CLOSED)) else jobs[j]
  }

  ghost function JobsClosed(jobs: map<JobId, Job>, r: RunId): map<JobId, Job> {
    ClosedBut(jobs, r, {})
  }

  lemma NoneClosed(jobs: map<JobId, Job>, r: RunId)
    ensures ClosedBut(jobs, r, jobs.Keys) == jobs
  {
  }

  lemma OneMoreClosed(jobs: map<JobId, Job>, r: RunId, open: set<JobId>, j: JobId)
    requires j in open && open <= jobs.Keys
    ensures ClosedBut(jobs, r, open).Keys == jobs.Keys && ClosedBut(jobs, r, open)[j] == jobs[j]
    ensures ClosedBut(jobs, r, open - {j})
         == if jobs[j].run == r && jobs[j].status == JobUncertain
            then ClosedBut(jobs, r, open)[j := jobs[j].(status := JobFailed, error := Some(BUILD_CLOSED))]
            else ClosedBut(jobs, r, open)
  {
  }

  lemma CloseJobEnabled(s: State, j: JobId, error: ErrorCode, now: Time)
    requires s.clock == now && j in s.jobs && s.jobs[j].status == JobUncertain
    requires s.jobs[j].run in s.runs && s.runs[s.jobs[j].run].resolution.Some?
    ensures Enabled(s, CloseJob(j, error), now)
    ensures Effect(s, CloseJob(j, error), now) == s.(jobs := s.jobs[j := s.jobs[j].(status := JobFailed, error := Some(error))])
  {
  }

  predicate Closable(jobs: map<JobId, Job>, r: RunId, run: Run) {
    && run.status == RunUncertain && run.resolution.None?
    && (forall j :: j in jobs && jobs[j].run == r ==>
          && jobs[j].kind == BuildJob && jobs[j].output.None?
          && (jobs[j].status == JobUncertain || jobs[j].status == JobFailed))
    && (forall c :: c in run.parts ==> run.parts[c].status != PartSucceeded && run.parts[c].artifact.None?)
    && (exists j :: j in jobs && jobs[j].run == r && jobs[j].status == JobUncertain
                    && jobs[j].error == Some(WORKER_INTERRUPTED))
  }

  function CloseProblem(s: State, r: RunId, actor: Actor, owner: bool, head: Head, change: nat): Option<Refusal> {
    if !owner then Some(AccessDenied)
    else if r !in s.runs then Some(RunNotFound)
    else if s.runs[r].actor != actor || s.runs[r].sourceHead != Some(head) then Some(ResolutionDenied)
    else if s.runs[r].resolution.Some? then
      if s.runs[r].resolution.value.change != change then Some(ResolutionConflict) else None
    else if !Closable(s.jobs, r, s.runs[r]) then Some(ResolutionUnavailable)
    else None
  }

  // ---------- Executors ----------

  predicate Overlapping(executors: map<ExecutorId, Executor>, e: ExecutorId, system: string, bindings: seq<Binding>) {
    exists d :: d in executors && d != e && executors[d].active && executors[d].role == Destination
      && executors[d].system == Some(system) && SharesRoot(executors[d].bindings, bindings)
  }

  predicate SharesRoot(a: seq<Binding>, b: seq<Binding>) {
    exists x :: x in a && exists y :: y in b && Overlap(x.root, y.root)
  }

  lemma FreeRootsMayBeBound(executors: map<ExecutorId, Executor>, e: ExecutorId, system: string, bindings: seq<Binding>)
    requires e in executors && (executors[e].role == Destination ==> !Overlapping(executors, e, system, bindings))
    ensures MayBind(executors, e, system, bindings)
  {
    hide Overlap;
  }

  function HeartbeatProblem(s: State, e: ExecutorId, owner: bool, system: string, bindings: seq<Binding>): Option<Refusal> {
    var problem := AuthenticationProblem(s.executors, e, owner, s.clock);
    if problem.Some? then problem
    else if s.executors[e].system.Some? then
      if s.executors[e].system.value != system || s.executors[e].bindings != bindings then Some(EnrollmentChanged) else None
    else if s.executors[e].role == Destination && Overlapping(s.executors, e, system, bindings) then Some(DestinationOwned)
    else None
  }

  lemma PlannedConfig(nodes: seq<Node>, config: Config)
    requires UniqueIds(nodes) && config.specs.Keys == Ids(nodes) && |config.names| == |nodes|
    requires forall i :: 0 <= i < |nodes| ==> config.names[i] == nodes[i].id
    requires Topological(config.order, config.specs) && DistinctTargets(config.specs)
    ensures ValidConfig(config)
  {
    NamesListed(nodes, config.names);
  }

  lemma NamesListed(nodes: seq<Node>, names: seq<ComponentId>)
    requires UniqueIds(nodes) && |names| == |nodes| && forall i :: 0 <= i < |nodes| ==> names[i] == nodes[i].id
    ensures Lists(names, Ids(nodes))
  {
    forall x | x in Ids(nodes) ensures x in names {
      var n :| n in nodes && n.id == x;
      var i :| 0 <= i < |nodes| && nodes[i] == n;
      assert names[i] == x;
    }
  }
}
