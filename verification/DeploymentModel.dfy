/**
 The durable records of the component deployment orchestrator and the guarded
 single-record writes that are its only ways of changing them. A crash can fall
 between any two writes, so one write is one step.
 */
module DeploymentModel {
  import opened Basics

  type RunId = nat
  type JobId = nat
  type ProfileId = nat
  type ComponentId = nat
  type ExecutorId = nat
  type BindingId = nat
  type Recipe = nat
  type ErrorCode = nat

  /** The placeholder of a component that has no builder or destination yet; never an enrolled id. */
  const UNASSIGNED: ExecutorId := 0
  const HOUR: nat := 60 * 60000

  datatype Spec = Spec(
    builder: ExecutorId, destination: ExecutorId, binding: BindingId, recipe: Recipe, deps: set<ComponentId>)

  /** `names` is the stored component list; `order` is what `ComponentOrder` makes of it. */
  datatype Config = Config(
    profile: ProfileId, revision: nat, archived: bool,
    names: seq<ComponentId>, specs: map<ComponentId, Spec>, order: seq<ComponentId>)

  ghost predicate Topological(order: seq<ComponentId>, specs: map<ComponentId, Spec>) {
    && Lists(order, specs.Keys)
    && forall i, x :: 0 <= i < |order| && x in specs[order[i]].deps ==> x in order[..i]
  }

  function Target(spec: Spec): (ExecutorId, BindingId) {
    (spec.destination, spec.binding)
  }

  ghost predicate DistinctTargets(specs: map<ComponentId, Spec>) {
    forall x, y :: x in specs && y in specs && x != y && specs[x].destination != UNASSIGNED
      ==> Target(specs[x]) != Target(specs[y])
  }

  ghost predicate ValidConfig(config: Config) {
    && Lists(config.names, config.specs.Keys)
    && Topological(config.order, config.specs)
    && DistinctTargets(config.specs)
  }

  datatype Operation = Deploy | Rollback
  datatype Kind = BuildJob | DeployJob

  datatype JobStatus = Queued | Working | JobSucceeded | JobFailed | JobUncertain
  datatype PartStatus = Pending | Building | Deploying | PartSucceeded | PartFailed | Blocked | PartUncertain
  datatype RunStatus = Publishing | Running | RunSucceeded | RunFailed | RunPartial | RunUncertain

  /** `expected` holds the releases the requester takes to be current, in the order in which they were written. */
  datatype Request = Request(
    profile: ProfileId, revision: nat, operation: Operation, component: Option<ComponentId>,
    connector: Option<nat>, expected: seq<(ComponentId, Option<RunId>)>, change: nat)

  function ExpectedOf(expected: seq<(ComponentId, Option<RunId>)>, c: ComponentId): Option<Option<RunId>> {
    if expected == [] then None
    else if expected[0].0 == c then Some(expected[0].1)
    else ExpectedOf(expected[1..], c)
  }

  /** One component's result inside a run. */
  datatype Part = Part(
    status: PartStatus, artifact: Option<Digest>, previous: Option<RunId>, release: Option<RunId>,
    error: Option<ErrorCode>)

  datatype Resolution = Resolution(owner: Actor, at: Time, head: Head, change: nat)

  datatype Run = Run(
    actor: Actor, body: Request, config: Config, sourceHead: Option<Head>, status: RunStatus,
    created: Time, updated: Time, expires: Time, parts: map<ComponentId, Part>, resolution: Option<Resolution>)

  datatype Job = Job(
    run: RunId, profile: ProfileId, component: ComponentId, executor: ExecutorId, kind: Kind, status: JobStatus,
    created: Time, expires: Time, binding: BindingId, sourceHead: Head, input: Digest,
    output: Option<Digest>, previous: Option<Digest>, error: Option<ErrorCode>)

  /** The developer connector's durable answer for one run's source publication. */
  datatype Source = Waiting | Published(head: Head) | Refused(error: ErrorCode)

  datatype Role = Builder | Destination
  datatype Binding = Binding(id: BindingId, root: string, recipes: set<Recipe>)
  datatype Executor = Executor(
    profile: ProfileId, role: Role, actor: Actor, active: bool, expires: Time,
    system: Option<string>, bindings: seq<Binding>)

  /**
   `clock` is the latest instant the control plane has acted at. `delivered` is a history variable:
   the run whose deploy job last reported success for a component of a profile.
   */
  datatype State = State(
    runs: map<RunId, Run>, jobs: map<JobId, Job>, sources: map<RunId, Source>,
    executors: map<ExecutorId, Executor>, profiles: map<ProfileId, Config>,
    clock: Time, delivered: map<(ProfileId, ComponentId), RunId>)

  const EMPTY := State(map[], map[], map[], map[], map[], 0, map[])

  const DEPENDENCY_FAILED: ErrorCode := 1
  const EXECUTION_FAILED: ErrorCode := 2
  const REQUEST_EXPIRED: ErrorCode := 3
  const WORKER_INTERRUPTED: ErrorCode := 5
  const BUILD_CLOSED: ErrorCode := 6

  // ---------- Reading the records ----------

  predicate Unfinished(run: Run) {
    run.status == Publishing || run.status == Running || run.status == RunUncertain
  }

  predicate Terminal(status: PartStatus) {
    status == PartSucceeded || Bad(status)
  }

  predicate Bad(status: PartStatus) {
    status == PartFailed || status == Blocked || status == PartUncertain
  }

  predicate Is(job: Job, r: RunId, c: ComponentId, kind: Kind) {
    job.run == r && job.component == c && job.kind == kind
  }

  ghost predicate HasJob(jobs: map<JobId, Job>, r: RunId, c: ComponentId, kind: Kind) {
    exists j :: j in jobs && Is(jobs[j], r, c, kind)
  }

  ghost predicate JobIs(jobs: map<JobId, Job>, r: RunId, c: ComponentId, kind: Kind, status: JobStatus) {
    exists j :: j in jobs && Is(jobs[j], r, c, kind) && jobs[j].status == status
  }

  /** The destination of component c has reported success for run r. */
  ghost predicate Deployed(jobs: map<JobId, Job>, r: RunId, c: ComponentId) {
    JobIs(jobs, r, c, DeployJob, JobSucceeded)
  }

  /** A successful build of component c in run r produced this artifact. */
  ghost predicate Built(jobs: map<JobId, Job>, r: RunId, c: ComponentId, artifact: Digest) {
    exists j :: j in jobs && Is(jobs[j], r, c, BuildJob) && jobs[j].status == JobSucceeded
             && jobs[j].output == Some(artifact)
  }

  /** The dependencies of c that take part in the run themselves. */
  ghost function InRun(run: Run, c: ComponentId): set<ComponentId>
    requires c in run.config.specs
  {
    set x | x in run.config.specs[c].deps && x in run.parts
  }

  function NextKind(part: Part): Kind {
    if part.artifact.Some? then DeployJob else BuildJob
  }

  function ErrorOf(job: Job, fallback: ErrorCode): ErrorCode {
    if job.error.Some? then job.error.value else fallback
  }

  /** The first binding of an executor that serves a recipe, and for a destination the binding asked for. */
  function PickBinding(bindings: seq<Binding>, recipe: Recipe, only: Option<BindingId>): (b: Option<Binding>)
    ensures b.Some? ==> b.value in bindings && recipe in b.value.recipes && (only.Some? ==> b.value.id == only.value)
    ensures b.None? ==> forall x :: x in bindings && recipe in x.recipes ==> only.Some? && x.id != only.value
  {
    if bindings == [] then None
    else if recipe in bindings[0].recipes && (only.None? || bindings[0].id == only.value) then Some(bindings[0])
    else PickBinding(bindings[1..], recipe, only)
  }

  // ---------- The current release ----------

  /** Newest first: by the last update, then by creation. */
  predicate SortsBefore(a: Run, b: Run) {
    a.updated > b.updated || (a.updated == b.updated && a.created > b.created)
  }

  predicate Candidate(runs: map<RunId, Run>, r: RunId, profile: ProfileId, c: ComponentId) {
    r in runs && runs[r].config.profile == profile && c in runs[r].parts && runs[r].parts[c].status == PartSucceeded
  }

  /** The first run of the stable newest-first sort of those in which component c succeeded. */
  function Current(runs: map<RunId, Run>, listing: seq<RunId>, profile: ProfileId, c: ComponentId): (r: Option<RunId>)
    ensures r.Some? ==> r.value in listing && Candidate(runs, r.value, profile, c)
    ensures r.Some? ==> forall q :: q in listing && Candidate(runs, q, profile, c) ==> !SortsBefore(runs[q], runs[r.value])
    ensures r.None? ==> forall q :: q in listing ==> !Candidate(runs, q, profile, c)
  {
    if listing == [] then None
    else
      var best := Current(runs, listing[..|listing| - 1], profile, c);
      var last := listing[|listing| - 1];
      assert forall q :: q in listing ==> q in listing[..|listing| - 1] || q == last;
      if Candidate(runs, last, profile, c) && (best.None? || SortsBefore(runs[last], runs[best.value]))
      then Some(last) else best
  }

  // ---------- How a run ends ----------

  predicate Every(parts: map<ComponentId, Part>, status: PartStatus) {
    forall c :: c in parts ==> parts[c].status == status
  }

  predicate Any(parts: map<ComponentId, Part>, status: PartStatus) {
    exists c :: c in parts && parts[c].status == status
  }

  predicate Settled(parts: map<ComponentId, Part>) {
    forall c :: c in parts ==> Terminal(parts[c].status) && parts[c].status != PartUncertain
  }

  function Outcome(parts: map<ComponentId, Part>): RunStatus {
    if Every(parts, PartSucceeded) then RunSucceeded
    else if Any(parts, PartSucceeded) then RunPartial
    else RunFailed
  }

  /** The status of a running run after a pass over its components. */
  function AfterPass(parts: map<ComponentId, Part>): RunStatus {
    if Any(parts, PartUncertain) then RunUncertain
    else if Settled(parts) then Outcome(parts)
    else Running
  }

  ghost function ExpiredPart(jobs: map<JobId, Job>, r: RunId, c: ComponentId, part: Part, error: ErrorCode): Part {
    if part.status == PartSucceeded || part.status == PartFailed || part.status == Blocked then part
    else if Deployed(jobs, r, c) then part.(status := PartSucceeded)
    else if JobIs(jobs, r, c, DeployJob, Working) || JobIs(jobs, r, c, DeployJob, JobUncertain)
    then part.(status := PartUncertain)
    else part.(status := PartFailed, error := Some(error))
  }

  /** What an expired or no longer permitted run becomes: uncertain deploy work keeps it open. */
  ghost function Expired(jobs: map<JobId, Job>, r: RunId, run: Run, now: Time, error: ErrorCode): Run {
    var parts := map c | c in run.parts :: ExpiredPart(jobs, r, c, run.parts[c], error);
    run.(parts := parts, updated := now,
         status := if Any(parts, PartUncertain) then RunUncertain else Outcome(parts))
  }

  function AllFailed(parts: map<ComponentId, Part>, error: ErrorCode): map<ComponentId, Part> {
    map c | c in parts :: parts[c].(status := PartFailed, error := Some(error))
  }

  /** A run whose source could not be published. */
  function Unpublished(run: Run, now: Time, error: ErrorCode): Run {
    run.(status := RunFailed, parts := AllFailed(run.parts, error), updated := now)
  }

  function Closed(run: Run, resolution: Resolution, error: ErrorCode): Run {
    run.(status := RunFailed, parts := AllFailed(run.parts, error), updated := resolution.at,
         resolution := Some(resolution))
  }

  // ---------- One durable write ----------

  datatype Action =
    | Tick
    | AddRun(r: RunId, run: Run)
    | AddJob(j: JobId, job: Job)
    | SavePass(r: RunId, run: Run)
    | SaveWaiting(r: RunId)
    | SaveExpired(r: RunId, error: ErrorCode)
    | SaveUnpublished(r: RunId, error: ErrorCode)
    | ClaimJob(j: JobId)
    | UploadOutput(j: JobId, output: Digest)
    | CompleteJob(j: JobId, status: JobStatus, reported: Option<ErrorCode>)
    | CloseRun(r: RunId, resolution: Resolution, error: ErrorCode)
    | CloseJob(j: JobId, error: ErrorCode)
    | SourceReplies(r: RunId, source: Source)
    | AddExecutor(e: ExecutorId, executor: Executor)
    | BindExecutor(e: ExecutorId, system: string, bindings: seq<Binding>)
    | RevokeExecutor(e: ExecutorId)
    | SaveProfile(p: ProfileId, config: Config)

  ghost function Effect(s: State, a: Action, now: Time): State
    requires Enabled(s, a, now)
  {
    var t := s.(clock := now);
    match a
    case Tick => t
    case AddRun(r, run) => t.(runs := s.runs[r := run])
    case AddJob(j, job) => t.(jobs := s.jobs[j := job])
    case SavePass(r, run) => t.(runs := s.runs[r := run])
    case SaveWaiting(r) => t.(runs := s.runs[r := s.runs[r].(updated := now)])
    case SaveExpired(r, error) => t.(runs := s.runs[r := Expired(s.jobs, r, s.runs[r], now, error)])
    case SaveUnpublished(r, error) => t.(runs := s.runs[r := Unpublished(s.runs[r], now, error)])
    case ClaimJob(j) => t.(jobs := s.jobs[j := s.jobs[j].(status := Working)])
    case UploadOutput(j, output) => t.(jobs := s.jobs[j := s.jobs[j].(output := Some(output))])
    case CompleteJob(j, status, error) =>
      var job := s.jobs[j];
      var done := job.(status := status, error := if error.Some? then error else job.error);
      t.(jobs := s.jobs[j := done],
         delivered := if job.kind == DeployJob && status == JobSucceeded
                      then s.delivered[(job.profile, job.component) := job.run] else s.delivered)
    case CloseRun(r, resolution, error) => t.(runs := s.runs[r := Closed(s.runs[r], resolution, error)])
    case CloseJob(j, error) => t.(jobs := s.jobs[j := s.jobs[j].(status := JobFailed, error := Some(error))])
    case SourceReplies(r, source) => t.(sources := s.sources[r := source])
    case AddExecutor(e, executor) => t.(executors := s.executors[e := executor])
    case BindExecutor(e, system, bindings) =>
      t.(executors := s.executors[e := s.executors[e].(system := Some(system), bindings := bindings)])
    case RevokeExecutor(e) => t.(executors := s.executors[e := s.executors[e].(active := false)])
    case SaveProfile(p, config) => t.(profiles := s.profiles[p := config])
  }

  ghost predicate Enabled(s: State, a: Action, now: Time) {
    && s.clock <= now
    && match a
       case Tick => true
       case AddRun(r, run) => MayAddRun(s, r, run, now)
       case AddJob(j, job) => MayAddJob(s, j, job)
       case SavePass(r, run) => MaySavePass(s, r, run, now)
       case SaveExpired(r, _) => r in s.runs && (s.runs[r].status == Publishing || s.runs[r].status == Running)
       case SaveWaiting(r) => r in s.runs && s.runs[r].status == Publishing
       case SaveUnpublished(r, _) => r in s.runs && s.runs[r].status == Publishing
       case ClaimJob(j) =>
         && j in s.jobs && s.jobs[j].status == Queued && now < s.jobs[j].expires
         && s.jobs[j].run in s.runs && s.runs[s.jobs[j].run].status == Running
       case UploadOutput(j, output) =>
         && j in s.jobs && s.jobs[j].kind == BuildJob && s.jobs[j].status == Working && now < s.jobs[j].expires
         && (s.jobs[j].output.Some? ==> s.jobs[j].output.value == output)
       case CompleteJob(j, status, _) =>
         && j in s.jobs && s.jobs[j].status == Working
         && (status == JobSucceeded || status == JobFailed || status == JobUncertain)
         && (s.jobs[j].kind == BuildJob && status == JobSucceeded ==> s.jobs[j].output.Some?)
       case CloseRun(r, resolution, _) =>
         r in s.runs && MayClose(s.jobs, r, s.runs[r]) && resolution.at == now
       case CloseJob(j, _) =>
         && j in s.jobs && s.jobs[j].status == JobUncertain
         && s.jobs[j].run in s.runs && s.runs[s.jobs[j].run].resolution.Some?
       case SourceReplies(r, source) => r in s.runs && (r in s.sources ==> s.sources[r] == Waiting)
       case AddExecutor(e, executor) =>
         e !in s.executors && e != UNASSIGNED && executor.system.None? && executor.bindings == []
       case BindExecutor(e, system, bindings) =>
         e in s.executors && s.executors[e].system.None? && MayBind(s.executors, e, system, bindings)
       case RevokeExecutor(e) => e in s.executors
       case SaveProfile(p, config) =>
         && ValidConfig(config) && config.profile == p
         && (forall r :: r in s.runs && s.runs[r].config.profile == p ==> !Unfinished(s.runs[r]))
  }

  // ---------- Guards ----------

  /** An executor that can do this kind of work for a component. */
  ghost predicate Equipped(executors: map<ExecutorId, Executor>, spec: Spec, kind: Kind) {
    match kind
    case BuildJob =>
      && spec.builder in executors
      && PickBinding(executors[spec.builder].bindings, spec.recipe, None).Some?
    case DeployJob =>
      && spec.destination in executors
      && PickBinding(executors[spec.destination].bindings, spec.recipe, Some(spec.binding)).Some?
  }

  /** An open run holds its profile and every destination its configuration names. */
  ghost predicate Busy(run: Run, config: Config, selected: set<ComponentId>)
    requires selected <= config.specs.Keys
  {
    && Unfinished(run)
    && (|| run.config.profile == config.profile
        || exists a, b :: a in run.config.specs && b in selected
                       && Target(run.config.specs[a]) == Target(config.specs[b]))
  }

  ghost predicate MayAddRun(s: State, r: RunId, run: Run, now: Time) {
    && r !in s.runs
    && ValidConfig(run.config) && run.parts.Keys <= run.config.specs.Keys && run.parts != map[]
    && run.body.profile == run.config.profile
    && run.created == run.updated == now && run.expires == now + HOUR
    && run.sourceHead.None? && run.resolution.None?
    && run.status == (if run.body.operation == Operation.Deploy then Publishing else Running)
    && (forall q :: q in s.runs ==> !Busy(s.runs[q], run.config, run.parts.Keys))
    && (forall c :: c in run.parts ==>
          && Equipped(s.executors, run.config.specs[c], DeployJob)
          && (run.body.operation == Operation.Deploy ==> Equipped(s.executors, run.config.specs[c], BuildJob))
          && NewPart(s, run, c))
  }

  ghost predicate SucceededIn(s: State, q: RunId, profile: ProfileId, c: ComponentId) {
    Candidate(s.runs, q, profile, c)
  }

  /** A new run's part starts pending; a rollback takes the artifact of the release before the current one. */
  ghost predicate NewPart(s: State, run: Run, c: ComponentId)
    requires c in run.parts
  {
    var part := run.parts[c];
    && part.status == Pending && part.error.None?
    && (part.previous.Some? ==> SucceededIn(s, part.previous.value, run.config.profile, c))
    && (match run.body.operation
        case Deploy => part.artifact.None? && part.release.None?
        case Rollback =>
          && part.previous.Some? && part.artifact.Some? && part.release.Some?
          && var older := s.runs[part.previous.value].parts[c].previous;
          && older.Some? && SucceededIn(s, older.value, run.config.profile, c)
          && var saved := s.runs[older.value].parts[c];
          && part.artifact == saved.artifact
          && part.release == if saved.release.Some? then saved.release else older)
  }

  /** A job is told the artifact that its component's previous release deployed, if there is one. */
  ghost predicate Replaces(jobs: map<JobId, Job>, part: Part, c: ComponentId, previous: Option<Digest>) {
    match part.previous
    case None => previous.None?
    case Some(q) =>
      exists d :: d in jobs && Is(jobs[d], q, c, DeployJob) && jobs[d].status == JobSucceeded
               && previous == Some(jobs[d].input)
  }

  /** A job names a binding of its executor that serves the component's recipe. */
  ghost predicate Serves(executors: map<ExecutorId, Executor>, job: Job, recipe: Recipe) {
    && job.executor in executors
    && exists b :: b in executors[job.executor].bindings && b.id == job.binding && recipe in b.recipes
  }

  ghost predicate MayAddJob(s: State, j: JobId, job: Job) {
    && j !in s.jobs && job.run in s.runs
    && var r, c, run := job.run, job.component, s.runs[job.run];
    && c in run.parts && c in run.config.specs && !Terminal(run.parts[c].status)
    && job.status == Queued && job.output.None?
    && job.profile == run.config.profile && job.expires == run.expires
    && !HasJob(s.jobs, r, c, job.kind)
    && (forall x :: x in InRun(run, c) ==> Deployed(s.jobs, r, x))
    && var spec, part := run.config.specs[c], run.parts[c];
    && Replaces(s.jobs, part, c, job.previous) && Serves(s.executors, job, spec.recipe)
    && match job.kind
       case BuildJob =>
         && (run.status == Publishing || run.status == Running) && part.artifact.None?
         && job.executor == spec.builder
         && r in s.sources && s.sources[r] == Published(job.sourceHead)
       case DeployJob =>
         && run.status == Running && part.artifact == Some(job.input)
         && job.executor == spec.destination && job.binding == spec.binding
         && part.release.Some? && part.release.value in s.sources
         && s.sources[part.release.value] == Published(job.sourceHead)
  }

  /** A job that ended this way gave the error it reported, or that its execution failed. */
  ghost predicate Reports(jobs: map<JobId, Job>, r: RunId, c: ComponentId, kind: Kind, status: JobStatus, error: Option<ErrorCode>) {
    exists j :: j in jobs && Is(jobs[j], r, c, kind) && jobs[j].status == status
             && error == Some(match jobs[j].error case Some(reported) => reported case None => EXECUTION_FAILED)
  }

  /** How a pass may move one part: only as far as the stored jobs and the parts it depends on allow. */
  ghost predicate PartMoves(jobs: map<JobId, Job>, r: RunId, a: Run, b: Run, c: ComponentId)
    requires c in a.parts && c in b.parts && c in a.config.specs
  {
    var x, y := a.parts[c], b.parts[c];
    || y == x
    || (!Terminal(x.status) && (
          || (!Terminal(y.status) && y == x.(status := y.status))
          || (x.artifact.None? && y.artifact.Some? && Built(jobs, r, c, y.artifact.value)
              && y == x.(artifact := y.artifact, release := Some(r), status := Pending))
          || (x.artifact.Some? && Deployed(jobs, r, c) && y == x.(status := PartSucceeded))
          || (JobIs(jobs, r, c, NextKind(x), JobFailed) && Reports(jobs, r, c, NextKind(x), JobFailed, y.error)
              && y == x.(status := PartFailed, error := y.error))
          || (JobIs(jobs, r, c, NextKind(x), JobUncertain) && Reports(jobs, r, c, NextKind(x), JobUncertain, y.error)
              && y == x.(status := PartUncertain, error := y.error))
          || (y == x.(status := Blocked, error := Some(DEPENDENCY_FAILED))
              && exists d :: d in InRun(a, c) && d in b.parts && Bad(b.parts[d].status))))
  }

  ghost predicate MaySavePass(s: State, r: RunId, b: Run, now: Time) {
    && r in s.runs
    && var a := s.runs[r];
    && (a.status == Running
        || (a.status == Publishing && r in s.sources && s.sources[r].Published?))
    && b == a.(sourceHead := if a.status == Running then a.sourceHead else Some(s.sources[r].head),
               status := AfterPass(b.parts), parts := b.parts, updated := now)
    && b.parts.Keys == a.parts.Keys
    && forall c :: c in a.parts ==> c in a.config.specs && PartMoves(s.jobs, r, a, b, c)
  }

  /** An interrupted build may be closed only while nothing it made could have reached a destination. */
  ghost predicate MayClose(jobs: map<JobId, Job>, r: RunId, run: Run) {
    && run.status == RunUncertain && run.resolution.None?
    && (forall j :: j in jobs && jobs[j].run == r ==>
          && jobs[j].kind == BuildJob && jobs[j].output.None?
          && (jobs[j].status == JobUncertain || jobs[j].status == JobFailed))
    && (forall c :: c in run.parts ==> run.parts[c].status != PartSucceeded && run.parts[c].artifact.None?)
  }

  // ---------- Destination roots ----------

  predicate Prefix(a: string, b: string) {
    |a| <= |b| && b[..|a|] == a
  }

  function Lower(c: char): char {
    if 'A' <= c <= 'Z' then ((c as int) + 32) as char else c
  }

  function Slashed(s: string): string {
    if s == "" then "" else [if s[0] == '/' then '\\' else Lower(s[0])] + Slashed(s[1..])
  }

  function Trimmed(s: string): string {
    if s != "" && s[|s| - 1] == '\\' then Trimmed(s[..|s| - 1]) else s
  }

  /** Separators and letter case unified, one separator at the end. */
  function Normalized(root: string): string {
    Trimmed(Slashed(root)) + "\\"
  }

  predicate Overlap(a: string, b: string) {
    Prefix(Normalized(b), Normalized(a)) || Prefix(Normalized(a), Normalized(b))
  }

  ghost predicate Owns(executor: Executor, system: string, root: string) {
    && executor.active && executor.role == Destination && executor.system == Some(system)
    && exists b :: b in executor.bindings && b.root == root
  }

  ghost predicate MayBind(executors: map<ExecutorId, Executor>, e: ExecutorId, system: string, bindings: seq<Binding>)
    requires e in executors
  {
    executors[e].role == Destination ==>
      forall d, root, b :: d in executors && d != e && Owns(executors[d], system, root) && b in bindings
        ==> !Overlap(root, b.root)
  }
}
