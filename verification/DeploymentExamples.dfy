/** Histories in which the orchestrator does less than one might expect: the exceptions in the theorems do occur. */
module DeploymentExamples {
  import opened Basics
  import opened DeploymentModel
  import opened DeploymentInvariant
  import opened DeploymentSteps
  import opened DeploymentTheorems
  import opened DeploymentCalls

  // A project with two independent components, built by executor 1 and deployed by executor 2.

  const BUILDER := Executor(1, Builder, 1, true, HOUR, None, [])
  const TARGET := Executor(1, Destination, 1, true, HOUR, None, [])
  const BUILDS := [Binding(5, "builds", {7})]
  const TARGETS := [Binding(10, "first", {7}), Binding(11, "second", {7})]
  const EXECUTORS: map<ExecutorId, Executor> :=
    map[1 := BUILDER.(system := Some("b"), bindings := BUILDS), 2 := TARGET.(system := Some("t"), bindings := TARGETS)]
  const SPECS: map<ComponentId, Spec> := map[1 := Spec(1, 2, 10, 7, {}), 2 := Spec(1, 2, 11, 7, {})]
  const PROJECT := Config(1, 1, false, [1, 2], SPECS, [1, 2])
  const EQUIPPED := State(map[], map[], map[], EXECUTORS, map[1 := PROJECT], 0, map[])

  lemma ProjectIsValid()
    ensures ValidConfig(PROJECT)
  {
    assert forall x: ComponentId :: x in PROJECT.names <==> x in SPECS.Keys;
  }

  lemma EquippedForBoth()
    ensures forall c :: c in SPECS ==> Equipped(EXECUTORS, SPECS[c], BuildJob) && Equipped(EXECUTORS, SPECS[c], DeployJob)
  {
  }

  /** One more write at the instant 0. */
  lemma Write(h: seq<State>, a: Action, after: State) returns (g: seq<State>)
    requires History(h) && Enabled(h[|h| - 1], a, 0) && Effect(h[|h| - 1], a, 0) == after
    ensures History(g) && h <= g && |g| == |h| + 1 && g[|g| - 1] == after
  {
    hide Enabled, Effect, History;
    Extends1(h, a, 0);
    g := h + [after];
  }

  lemma Equip() returns (h: seq<State>)
    ensures History(h) && h != [] && h[|h| - 1] == EQUIPPED
  {
    ProjectIsValid();
    hide ValidConfig, Overlap;
    h := [EMPTY];
    h := Write(h, AddExecutor(1, BUILDER), EMPTY.(executors := map[1 := BUILDER]));
    h := Write(h, AddExecutor(2, TARGET), EMPTY.(executors := map[1 := BUILDER, 2 := TARGET]));
    var half := map[1 := EXECUTORS[1], 2 := TARGET];
    h := Write(h, BindExecutor(1, "b", BUILDS), EMPTY.(executors := half));
    assert half[2 := EXECUTORS[2]] == EXECUTORS;
    h := Write(h, BindExecutor(2, "t", TARGETS), EMPTY.(executors := EXECUTORS));
    h := Write(h, SaveProfile(1, PROJECT), EQUIPPED);
  }

  // ---------- A deployment of component 1, every step of it within one millisecond ----------

  function BuildId(r: RunId): JobId { 2 * r }
  function DeployId(r: RunId): JobId { 2 * r + 1 }

  function Asked(previous: Option<RunId>): Request {
    Request(1, 1, Operation.Deploy, Some(1), Some(1), [(1, previous)], 0)
  }

  function Begun(previous: Option<RunId>): Run {
    Run(1, Asked(previous), PROJECT, None, Publishing, 0, 0, HOUR, map[1 := Part(Pending, None, previous, None, None)], None)
  }

  function With1(run: Run, part: Part, status: RunStatus): Run {
    run.(sourceHead := Some(9), status := status, parts := map[1 := part])
  }

  function BeingBuilt(previous: Option<RunId>): Run {
    With1(Begun(previous), Part(Building, None, previous, None, None), Running)
  }

  function WasBuilt(r: RunId, previous: Option<RunId>, status: PartStatus): Run {
    With1(Begun(previous), Part(status, Some(3), previous, Some(r), None), if status == PartSucceeded then RunSucceeded else Running)
  }

  function Replaced(previous: Option<RunId>): Option<Digest> {
    if previous.Some? then Some(3) else None
  }

  function Build(r: RunId, previous: Option<RunId>, status: JobStatus, output: Option<Digest>): Job {
    Job(r, 1, 1, 1, BuildJob, status, 0, HOUR, 5, 9, 4, output, Replaced(previous), None)
  }

  function Delivery(r: RunId, previous: Option<RunId>, status: JobStatus): Job {
    Job(r, 1, 1, 2, DeployJob, status, 0, HOUR, 10, 9, 3, None, Replaced(previous), None)
  }

  /** Nothing is under way, and nothing is known of run r. */
  ghost predicate Ready(s: State, r: RunId, previous: Option<RunId>) {
    && s.clock == 0 && s.executors == EXECUTORS
    && r !in s.runs && r !in s.sources && BuildId(r) !in s.jobs && DeployId(r) !in s.jobs
    && (forall q :: q in s.runs ==> !Unfinished(s.runs[q]))
    && (forall j :: j in s.jobs ==> s.jobs[j].run != r)
    && (previous.Some? ==>
          && SucceededIn(s, previous.value, 1, 1)
          && DeployId(previous.value) in s.jobs
          && s.jobs[DeployId(previous.value)] == Delivery(previous.value, None, JobSucceeded))
  }

  function AfterStart(s: State, r: RunId, previous: Option<RunId>): State {
    s.(runs := s.runs[r := BeingBuilt(previous)], jobs := s.jobs[BuildId(r) := Build(r, previous, Queued, None)],
       sources := s.sources[r := Published(9)])
  }

  lemma FirstPart(s: State, r: RunId, previous: Option<RunId>)
    requires Ready(s, r, previous)
    ensures NewPart(s, Begun(previous), 1)
  {
  }

  lemma NobodyBusy(s: State, r: RunId, previous: Option<RunId>)
    requires Ready(s, r, previous)
    ensures forall q :: q in s.runs ==> !Busy(s.runs[q], PROJECT, {1})
  {
  }

  lemma RunMayBegin(s: State, r: RunId, previous: Option<RunId>)
    requires Ready(s, r, previous)
    ensures MayAddRun(s, r, Begun(previous), 0)
  {
    hide ValidConfig, Equipped, NewPart, Busy;
    ProjectIsValid();
    EquippedForBoth();
    FirstPart(s, r, previous);
    NobodyBusy(s, r, previous);
    assert Begun(previous).parts.Keys == {1} && 1 in Begun(previous).parts;
  }

  // One write at a time, from any state that allows it.

  lemma BeginRun(h: seq<State>, r: RunId, previous: Option<RunId>) returns (g: seq<State>)
    requires h != [] && History(h) && Ready(h[|h| - 1], r, previous)
    ensures History(g) && h <= g
    ensures g[|g| - 1] == h[|h| - 1].(runs := h[|h| - 1].runs[r := Begun(previous)])
  {
    hide History, MayAddRun, Ready;
    var t := h[|h| - 1];
    RunMayBegin(t, r, previous);
    ReadyNow(t, r, previous);
    g := Write(h, AddRun(r, Begun(previous)), t.(runs := t.runs[r := Begun(previous)]));
  }

  lemma ReadyNow(s: State, r: RunId, previous: Option<RunId>)
    requires Ready(s, r, previous)
    ensures s.clock == 0 && r !in s.runs && r !in s.sources && BuildId(r) !in s.jobs && DeployId(r) !in s.jobs
    ensures forall j :: j in s.jobs ==> s.jobs[j].run != r
  {
  }

  lemma PublishSource(h: seq<State>, r: RunId) returns (g: seq<State>)
    requires h != [] && History(h) && h[|h| - 1].clock == 0 && r in h[|h| - 1].runs && r !in h[|h| - 1].sources
    ensures History(g) && h <= g
    ensures g[|g| - 1] == h[|h| - 1].(sources := h[|h| - 1].sources[r := Published(9)])
  {
    hide History;
    var t := h[|h| - 1];
    var waiting := t.(sources := t.sources[r := Waiting]);
    g := Write(h, SourceReplies(r, Waiting), waiting);
    assert waiting.sources[r := Published(9)] == t.sources[r := Published(9)];
    g := Write(g, SourceReplies(r, Published(9)), t.(sources := t.sources[r := Published(9)]));
  }

  lemma PutJob(h: seq<State>, j: JobId, job: Job) returns (g: seq<State>)
    requires h != [] && History(h) && h[|h| - 1].clock == 0 && MayAddJob(h[|h| - 1], j, job)
    ensures History(g) && h <= g && g[|g| - 1] == h[|h| - 1].(jobs := h[|h| - 1].jobs[j := job])
  {
    hide History, MayAddJob;
    var t := h[|h| - 1];
    g := Write(h, AddJob(j, job), t.(jobs := t.jobs[j := job]));
  }

  lemma SaveRun(h: seq<State>, r: RunId, run: Run) returns (g: seq<State>)
    requires h != [] && History(h) && h[|h| - 1].clock == 0 && MaySavePass(h[|h| - 1], r, run, 0)
    ensures History(g) && h <= g && g[|g| - 1] == h[|h| - 1].(runs := h[|h| - 1].runs[r := run])
  {
    hide History, MaySavePass;
    var t := h[|h| - 1];
    g := Write(h, SavePass(r, run), t.(runs := t.runs[r := run]));
  }

  /** A queued job of a running run is claimed and reported as succeeded, a build with its output. */
  lemma Work(h: seq<State>, j: JobId, output: Option<Digest>) returns (g: seq<State>)
    requires h != [] && History(h) && h[|h| - 1].clock == 0 && j in h[|h| - 1].jobs
    requires var t := h[|h| - 1];
             var job := t.jobs[j];
             && job.status == Queued && job.expires > 0 && job.run in t.runs && t.runs[job.run].status == Running
             && job.output.None? && job.error.None? && (output.Some? <==> job.kind == BuildJob)
    ensures History(g) && h <= g
    ensures var t := h[|h| - 1];
            var job := t.jobs[j];
            g[|g| - 1] == t.(jobs := t.jobs[j := job.(status := JobSucceeded, output := output)],
                             delivered := if job.kind == DeployJob then t.delivered[(job.profile, job.component) := job.run]
                                          else t.delivered)
  {
    hide History;
    var t := h[|h| - 1];
    var job := t.jobs[j];
    var working := t.(jobs := t.jobs[j := job.(status := Working)]);
    g := Write(h, ClaimJob(j), working);
    var built := t.(jobs := t.jobs[j := job.(status := Working, output := output)]);
    if output.Some? {
      assert working.jobs[j := job.(status := Working, output := output)] == built.jobs;
      g := Write(g, UploadOutput(j, output.value), built);
    } else {
      assert working == built;
    }
    var done := job.(status := JobSucceeded, output := output);
    assert built.jobs[j := done] == t.jobs[j := done];
    g := Write(g, CompleteJob(j, JobSucceeded, None),
               t.(jobs := t.jobs[j := done],
                  delivered := if job.kind == DeployJob then t.delivered[(job.profile, job.component) := job.run] else t.delivered));
  }

  // ---------- The steps of one deployment ----------

  function AfterBuild(s: State, r: RunId, previous: Option<RunId>): State {
    s.(runs := s.runs[r := WasBuilt(r, previous, Pending)], jobs := s.jobs[BuildId(r) := Build(r, previous, JobSucceeded, Some(3))],
       sources := s.sources[r := Published(9)])
  }

  function AfterDeployment(s: State, r: RunId, previous: Option<RunId>): State {
    s.(runs := s.runs[r := WasBuilt(r, previous, PartSucceeded)],
       jobs := s.jobs[BuildId(r) := Build(r, previous, JobSucceeded, Some(3))][DeployId(r) := Delivery(r, previous, JobSucceeded)],
       sources := s.sources[r := Published(9)], delivered := s.delivered[(1, 1) := r])
  }

  lemma StartDeployment(h: seq<State>, r: RunId, previous: Option<RunId>) returns (g: seq<State>)
    requires h != [] && History(h) && Ready(h[|h| - 1], r, previous)
    ensures History(g) && h <= g && g[|g| - 1] == AfterStart(h[|h| - 1], r, previous)
  {
    hide History, MaySavePass, MayAddJob, Ready;
    var s := h[|h| - 1];
    ReadyNow(s, r, previous);
    g := BeginRun(h, r, previous);
    g := PublishSource(g, r);
    var t := g[|g| - 1];
    BuildMayBeAdded(s, t, r, previous);
    g := PutJob(g, BuildId(r), Build(r, previous, Queued, None));
    FirstPassMayBeSaved(t.(jobs := t.jobs[BuildId(r) := Build(r, previous, Queued, None)]), r, previous);
    g := SaveRun(g, r, BeingBuilt(previous));
    assert t.runs[r := BeingBuilt(previous)] == s.runs[r := BeingBuilt(previous)];
  }

  lemma ToldThePrevious(s: State, jobs: map<JobId, Job>, r: RunId, part: Part)
    requires Ready(s, r, part.previous) && forall j :: j in s.jobs ==> j in jobs && jobs[j] == s.jobs[j]
    ensures Replaces(jobs, part, 1, Replaced(part.previous))
  {
    if part.previous.Some? {
      assert jobs[DeployId(part.previous.value)] == Delivery(part.previous.value, None, JobSucceeded);
    }
  }

  lemma BothServe(r: RunId, previous: Option<RunId>)
    ensures Serves(EXECUTORS, Build(r, previous, Queued, None), 7) && Serves(EXECUTORS, Delivery(r, previous, Queued), 7)
  {
    assert BUILDS[0] in BUILDS && TARGETS[0] in TARGETS;
  }

  lemma BuildMayBeAdded(s: State, t: State, r: RunId, previous: Option<RunId>)
    requires Ready(s, r, previous)
    requires t == s.(runs := s.runs[r := Begun(previous)], sources := s.sources[r := Published(9)])
    ensures MayAddJob(t, BuildId(r), Build(r, previous, Queued, None))
  {
    hide Replaces, Serves;
    ToldThePrevious(s, t.jobs, r, t.runs[r].parts[1]);
    BothServe(r, previous);
    assert InRun(Begun(previous), 1) == {};
  }

  lemma FirstPassMayBeSaved(t: State, r: RunId, previous: Option<RunId>)
    requires r in t.runs && t.runs[r] == Begun(previous) && r in t.sources && t.sources[r] == Published(9)
    ensures MaySavePass(t, r, BeingBuilt(previous), 0)
  {
    NotSettled(BeingBuilt(previous));
  }

  lemma NotSettled(run: Run)
    requires run.parts.Keys == {1} && !Terminal(run.parts[1].status)
    ensures AfterPass(run.parts) == Running
  {
    assert 1 in run.parts;
  }

  lemma BuildIt(h: seq<State>, s: State, r: RunId, previous: Option<RunId>) returns (g: seq<State>)
    requires h != [] && History(h) && Ready(s, r, previous) && h[|h| - 1] == AfterStart(s, r, previous)
    ensures History(g) && h <= g && g[|g| - 1] == AfterBuild(s, r, previous)
  {
    hide History, MaySavePass, Ready;
    ReadyNow(s, r, previous);
    g := Work(h, BuildId(r), Some(3));
    var t := g[|g| - 1];
    assert t.jobs == s.jobs[BuildId(r) := Build(r, previous, JobSucceeded, Some(3))];
    ArtifactMayBeTaken(t, r, previous);
    g := SaveRun(g, r, WasBuilt(r, previous, Pending));
    assert t.runs[r := WasBuilt(r, previous, Pending)] == s.runs[r := WasBuilt(r, previous, Pending)];
  }

  lemma ArtifactMayBeTaken(t: State, r: RunId, previous: Option<RunId>)
    requires r in t.runs && t.runs[r] == BeingBuilt(previous)
    requires BuildId(r) in t.jobs && t.jobs[BuildId(r)] == Build(r, previous, JobSucceeded, Some(3))
    ensures MaySavePass(t, r, WasBuilt(r, previous, Pending), 0)
  {
    assert Built(t.jobs, r, 1, 3);
    NotSettled(WasBuilt(r, previous, Pending));
  }

  lemma DeliverIt(h: seq<State>, s: State, r: RunId, previous: Option<RunId>) returns (g: seq<State>)
    requires h != [] && History(h) && Ready(s, r, previous) && h[|h| - 1] == AfterBuild(s, r, previous)
    ensures History(g) && h <= g && g[|g| - 1] == AfterDeployment(s, r, previous)
  {
    hide History, MaySavePass, MayAddJob, Ready;
    var t, d := h[|h| - 1], DeployId(r);
    g := BeginDelivery(h, s, r, previous);
    g := Work(g, d, None);
    var v := g[|g| - 1];
    assert v.jobs == t.jobs[d := Delivery(r, previous, JobSucceeded)];
    EndMayBeSaved(v, r, previous);
    g := SaveRun(g, r, WasBuilt(r, previous, PartSucceeded));
    assert v.runs[r := WasBuilt(r, previous, PartSucceeded)] == s.runs[r := WasBuilt(r, previous, PartSucceeded)];
  }

  lemma BeginDelivery(h: seq<State>, s: State, r: RunId, previous: Option<RunId>) returns (g: seq<State>)
    requires h != [] && History(h) && Ready(s, r, previous) && h[|h| - 1] == AfterBuild(s, r, previous)
    ensures History(g) && h <= g && s.clock == 0
    ensures var t := h[|h| - 1];
            g[|g| - 1] == t.(jobs := t.jobs[DeployId(r) := Delivery(r, previous, Queued)],
                             runs := t.runs[r := WasBuilt(r, previous, Deploying)])
  {
    hide History, MaySavePass, MayAddJob, Ready;
    ReadyNow(s, r, previous);
    DeliveryMayBeAdded(s, h[|h| - 1], r, previous);
    g := PutJob(h, DeployId(r), Delivery(r, previous, Queued));
    StillDeploying(g[|g| - 1], r, previous);
    g := SaveRun(g, r, WasBuilt(r, previous, Deploying));
  }

  lemma DeliveryMayBeAdded(s: State, t: State, r: RunId, previous: Option<RunId>)
    requires Ready(s, r, previous) && t == AfterBuild(s, r, previous)
    ensures MayAddJob(t, DeployId(r), Delivery(r, previous, Queued))
  {
    hide Replaces, Serves;
    ToldThePrevious(s, t.jobs, r, t.runs[r].parts[1]);
    BothServe(r, previous);
    NoDelivery(s, t, r, previous);
    assert InRun(WasBuilt(r, previous, Pending), 1) == {};
  }

  lemma NoDelivery(s: State, t: State, r: RunId, previous: Option<RunId>)
    requires Ready(s, r, previous) && t == AfterBuild(s, r, previous)
    ensures !HasJob(t.jobs, r, 1, DeployJob) && DeployId(r) !in t.jobs
  {
  }

  lemma StillDeploying(t: State, r: RunId, previous: Option<RunId>)
    requires r in t.runs && t.runs[r] == WasBuilt(r, previous, Pending)
    ensures MaySavePass(t, r, WasBuilt(r, previous, Deploying), 0)
  {
    NotSettled(WasBuilt(r, previous, Deploying));
  }

  lemma EndMayBeSaved(t: State, r: RunId, previous: Option<RunId>)
    requires r in t.runs && t.runs[r] == WasBuilt(r, previous, Deploying)
    requires DeployId(r) in t.jobs && t.jobs[DeployId(r)] == Delivery(r, previous, JobSucceeded)
    ensures MaySavePass(t, r, WasBuilt(r, previous, PartSucceeded), 0)
  {
    hide Reports, JobIs, Built;
    assert Deployed(t.jobs, r, 1) by { ItIsDeployed(t.jobs, r, DeployId(r)); }
    assert PartMoves(t.jobs, r, WasBuilt(r, previous, Deploying), WasBuilt(r, previous, PartSucceeded), 1);
  }

  lemma ItIsDeployed(jobs: map<JobId, Job>, r: RunId, d: JobId)
    requires d in jobs && Is(jobs[d], r, 1, DeployJob) && jobs[d].status == JobSucceeded
    ensures Deployed(jobs, r, 1)
  {
  }

  lemma DeployOnce(h: seq<State>, r: RunId, previous: Option<RunId>) returns (g: seq<State>)
    requires h != [] && History(h) && Ready(h[|h| - 1], r, previous)
    ensures History(g) && h <= g && g[|g| - 1] == AfterDeployment(h[|h| - 1], r, previous)
  {
    hide History, Ready, AfterStart, AfterBuild, AfterDeployment;
    g := StartDeployment(h, r, previous);
    g := BuildIt(g, h[|h| - 1], r, previous);
    g := DeliverIt(g, h[|h| - 1], r, previous);
  }

  // ---------- What goes wrong ----------

  /** Two deployments within one millisecond: the second was delivered last, and a directory order shows the first as current. */
  lemma TieHappens() returns (h: seq<State>, listing: seq<RunId>)
    ensures History(h) && h != [] && ProfileIdle(h[|h| - 1], 1) && Lists(listing, h[|h| - 1].runs.Keys)
    ensures (1, 1) in h[|h| - 1].delivered && h[|h| - 1].delivered[(1, 1)] == 2
    ensures Current(h[|h| - 1].runs, listing, 1, 1) == Some(1)
  {
    hide History, Ready;
    h := Equip();
    ReadyAtFirst();
    h := DeployOnce(h, 1, None);
    var t := h[|h| - 1];
    ReadyAgain();
    h := DeployOnce(h, 2, Some(1));
    TwoTied(t);
    listing := TieMisleads(h, |h| - 1, 1, 1);
  }

  lemma ReadyAgain()
    ensures Ready(AfterDeployment(EQUIPPED, 1, None), 2, Some(1))
  {
  }

  lemma TwoTied(t: State)
    requires t == AfterDeployment(EQUIPPED, 1, None)
    ensures var u := AfterDeployment(t, 2, Some(1));
            && ProfileIdle(u, 1) && u.runs.Keys == {1, 2} && Candidate(u.runs, 2, 1, 1) && Candidate(u.runs, 1, 1, 1)
            && (1, 1) in u.delivered && u.delivered[(1, 1)] == 2 && Tied(u, 1, 1, 2)
  {
    var u := AfterDeployment(t, 2, Some(1));
    assert Candidate(u.runs, 1, 1, 1);
  }

  /** A job left queued by a run that lost its permission is offered beside the job of the next run, and is refused. */
  lemma LeftoverIsInTheWay() returns (h: seq<State>, leftover: JobId, job: JobId)
    ensures History(h) && h != [] && leftover != job
    ensures Offered(h[|h| - 1], leftover, 1) && Offered(h[|h| - 1], job, 1)
    ensures ClaimAnswer(h[|h| - 1], leftover, 1, {1}) == Some(JobExpired)
    ensures ClaimAnswer(h[|h| - 1], job, 1, {1}) == None
  {
    hide History, Ready, Offered, ClaimAnswer;
    h := Equip();
    ReadyAtFirst();
    h := StartDeployment(h, 1, None);
    h := LosePermission(h);
    var t := h[|h| - 1];
    h := StartDeployment(h, 2, None);
    leftover, job := BuildId(1), BuildId(2);
    TwoAreOffered(t);
  }

  lemma ReadyAtFirst()
    ensures Ready(EQUIPPED, 1, None)
  {
  }

  lemma LosePermission(h: seq<State>) returns (g: seq<State>)
    requires h != [] && History(h) && h[|h| - 1] == AfterStart(EQUIPPED, 1, None)
    ensures History(g) && h <= g && Ready(g[|g| - 1], 2, None)
    ensures g[|g| - 1] == h[|h| - 1].(runs := g[|g| - 1].runs) && g[|g| - 1].runs.Keys == {1}
    ensures g[|g| - 1].runs[1].status == RunFailed
  {
    hide History;
    var t := h[|h| - 1];
    var run := GivenUp();
    SaysGivenUp(t.jobs);
    var after := t.(runs := t.runs[1 := run]);
    g := Write(h, SaveExpired(1, 1), after);
  }

  function GivenUp(): Run {
    BeingBuilt(None).(status := RunFailed, parts := map[1 := Part(PartFailed, None, None, None, Some(1))])
  }

  lemma SaysGivenUp(jobs: map<JobId, Job>)
    requires jobs == map[BuildId(1) := Build(1, None, Queued, None)]
    ensures Expired(jobs, 1, BeingBuilt(None), 0, 1) == GivenUp()
  {
    var run := Expired(jobs, 1, BeingBuilt(None), 0, 1);
    assert 1 in run.parts && run.parts[1] == GivenUp().parts[1];
    assert run.parts == GivenUp().parts;
  }

  lemma TwoAreOffered(t: State)
    requires t.clock == 0 && t.executors == EXECUTORS && t.runs.Keys == {1} && t.runs[1].status == RunFailed
    requires BuildId(1) in t.jobs && t.jobs[BuildId(1)] == Build(1, None, Queued, None)
    ensures var u := AfterStart(t, 2, None);
            && Offered(u, BuildId(1), 1) && Offered(u, BuildId(2), 1)
            && ClaimAnswer(u, BuildId(1), 1, {1}) == Some(JobExpired) && ClaimAnswer(u, BuildId(2), 1, {1}) == None
  {
  }

  function BothAsked(expected: seq<(ComponentId, Option<RunId>)>): Request {
    Request(1, 1, Operation.Deploy, None, Some(1), expected, 0)
  }

  const FIRST_THEN_SECOND: seq<(ComponentId, Option<RunId>)> := [(1, None), (2, None)]
  const SECOND_THEN_FIRST: seq<(ComponentId, Option<RunId>)> := [(2, None), (1, None)]

  /** A retry that lists the same two expected releases the other way round is refused. */
  lemma ReorderedRetryIsRefused() returns (h: seq<State>)
    ensures History(h) && h != [] && 1 in h[|h| - 1].runs
    ensures h[|h| - 1].runs[1].actor == 1 && h[|h| - 1].runs[1].body == BothAsked(FIRST_THEN_SECOND)
    ensures SameExpectations(BothAsked(SECOND_THEN_FIRST), BothAsked(FIRST_THEN_SECOND))
    ensures Answer(ViewOf(h[|h| - 1]), map[], [], 1, 1, BothAsked(SECOND_THEN_FIRST), true, true, true) == Err(RequestConflict)
  {
    hide History, MayAddRun, Answer;
    h := Equip();
    var part := Part(Pending, None, None, None, None);
    var run := Run(1, BothAsked(FIRST_THEN_SECOND), PROJECT, None, Publishing, 0, 0, HOUR, map[1 := part, 2 := part], None);
    BothMayBegin(run);
    h := Write(h, AddRun(1, run), EQUIPPED.(runs := map[1 := run]));
    forall c ensures ExpectedOf(SECOND_THEN_FIRST, c) == ExpectedOf(FIRST_THEN_SECOND, c) {
      ExpectedOfTwo(c);
    }
    RetriesThatMeanTheSame(h, |h| - 1, |h| - 1, map[], [], 1, BothAsked(SECOND_THEN_FIRST), true, true);
  }

  lemma ExpectedOfTwo(c: ComponentId)
    ensures ExpectedOf(FIRST_THEN_SECOND, c) == ExpectedOf(SECOND_THEN_FIRST, c)
         == if c == 1 || c == 2 then Some(None) else None
  {
    assert FIRST_THEN_SECOND[1..] == [(2, None)] && SECOND_THEN_FIRST[1..] == [(1, None)];
    ExpectedOfOne(1, c);
    ExpectedOfOne(2, c);
  }

  lemma ExpectedOfOne(only: ComponentId, c: ComponentId)
    ensures ExpectedOf([(only, None)], c) == if c == only then Some(None) else None
  {
    assert ExpectedOf([], c) == None;
  }

  lemma BothMayBegin(run: Run)
    requires run.parts == map[1 := Part(Pending, None, None, None, None), 2 := Part(Pending, None, None, None, None)]
    requires run == Run(1, BothAsked(FIRST_THEN_SECOND), PROJECT, None, Publishing, 0, 0, HOUR, run.parts, None)
    ensures MayAddRun(EQUIPPED, 1, run, 0)
  {
    hide ValidConfig, Equipped;
    ProjectIsValid();
    EquippedForBoth();
    assert 1 in run.parts;
  }
}
