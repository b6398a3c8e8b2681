/** What the orchestrator's answers mean, told from the records alone. */
module DeploymentAnswers {
  import opened Basics
  import opened DeploymentModel
  import opened DeploymentInvariant
  import opened DeploymentSteps
  import opened DeploymentTheorems
  import opened DeploymentCalls

  // ---------- request ----------

  /** An enrolled executor of the project, not revoked, heard of within twenty seconds, with a binding for the recipe. */
  ghost predicate InService(s: State, beats: map<ExecutorId, Time>, e: ExecutorId, role: Role, profile: ProfileId,
                            recipe: Recipe, binding: Option<BindingId>)
  {
    && e in s.executors
    && var x := s.executors[e];
    && x.active && x.profile == profile && x.role == role && s.clock < x.expires
    && e in beats && -5000 <= s.clock - beats[e] < 20000
    && exists b :: b in x.bindings && recipe in b.recipes && (binding.Some? ==> b.id == binding.value)
  }

  ghost predicate Asked(body: Request, c: ComponentId) {
    body.component == None || body.component == Some(c)
  }

  ghost predicate Connected(s: State, beats: map<ExecutorId, Time>, config: Config, body: Request, c: ComponentId)
    requires c in config.specs
  {
    var spec := config.specs[c];
    && (body.operation == Operation.Deploy ==> InService(s, beats, spec.builder, Builder, config.profile, spec.recipe, None))
    && InService(s, beats, spec.destination, Destination, config.profile, spec.recipe, Some(spec.binding))
  }

  /** The first entry for the component names this release, or none. */
  ghost predicate Expects(body: Request, c: ComponentId, release: Option<RunId>) {
    exists i :: 0 <= i < |body.expected| && body.expected[i] == (c, release)
             && forall k :: 0 <= k < i ==> body.expected[k].0 != c
  }

  lemma {:induction false} ExpectedMeans(expected: seq<(ComponentId, Option<RunId>)>, c: ComponentId, release: Option<RunId>)
    ensures ExpectedOf(expected, c) == Some(release)
       <==> exists i :: 0 <= i < |expected| && expected[i] == (c, release) && forall k :: 0 <= k < i ==> expected[k].0 != c
  {
    if expected != [] && expected[0].0 != c {
      var rest := expected[1..];
      ExpectedMeans(rest, c, release);
      if i :| 0 <= i < |expected| && expected[i] == (c, release) && forall k :: 0 <= k < i ==> expected[k].0 != c {
        assert rest[i - 1] == (c, release) && forall k :: 0 <= k < i - 1 ==> rest[k] == expected[k + 1];
      }
      if i :| 0 <= i < |rest| && rest[i] == (c, release) && forall k :: 0 <= k < i ==> rest[k].0 != c {
        assert expected[i + 1] == (c, release);
        assert forall k :: 0 <= k < i + 1 ==> expected[k] == if k == 0 then expected[0] else rest[k - 1];
      }
    } else if expected != [] {
      assert ExpectedOf(expected, c) == Some(release) ==> expected[0] == (c, release);
    }
  }

  /** The requester knows what is deployed. */
  ghost predicate UpToDate(s: State, listing: seq<RunId>, config: Config, body: Request, c: ComponentId) {
    Expects(body, c, Current(s.runs, listing, config.profile, c))
  }

  /** A component deployed on its own needs a deployed release of everything it depends on. */
  ghost predicate Supported(s: State, listing: seq<RunId>, config: Config, body: Request, c: ComponentId)
    requires c in config.specs
  {
    body.component.Some? ==> forall d :: d in config.specs[c].deps ==> Current(s.runs, listing, config.profile, d).Some?
  }

  /** The component has a release before its current one. */
  ghost predicate Reversible(s: State, listing: seq<RunId>, config: Config, c: ComponentId) {
    && Current(s.runs, listing, config.profile, c).Some?
    && var q := Current(s.runs, listing, config.profile, c).value;
    s.runs[q].parts[c].previous.Some?
  }

  /** A run that is not over belongs to the project or holds a target of a component asked for. */
  ghost predicate Blocks(run: Run, config: Config, body: Request) {
    && run.status in {Publishing, Running, RunUncertain}
    && (|| run.config.profile == config.profile
        || exists a, c :: a in run.config.specs && c in config.specs && Asked(body, c)
                       && run.config.specs[a].destination == config.specs[c].destination
                       && run.config.specs[a].binding == config.specs[c].binding)
  }

  ghost predicate KnownRevision(s: State, body: Request) {
    && body.profile in s.profiles && !s.profiles[body.profile].archived
    && s.profiles[body.profile].revision == body.revision
  }

  lemma ReadyMeansInService(s: State, beats: map<ExecutorId, Time>, e: ExecutorId, role: Role, profile: ProfileId,
                            recipe: Recipe, binding: Option<BindingId>)
    ensures ReadyFor(s.executors, beats, e, role, profile, recipe, binding, s.clock)
       <==> InService(s, beats, e, role, profile, recipe, binding)
  {
  }

  /** The problem of a component is the first of three that it has. */
  lemma ComponentProblemIs(s: State, beats: map<ExecutorId, Time>, listing: seq<RunId>, config: Config, body: Request, c: ComponentId)
    requires c in config.specs
    ensures ComponentProblem(ViewOf(s), beats, listing, config, body, c)
         == if !Connected(s, beats, config, body, c) then Some(TestRequired)
            else if !UpToDate(s, listing, config, body, c) then Some(CurrentConflict)
            else if !Supported(s, listing, config, body, c) then Some(DependencyNotDeployed)
            else None
  {
    hide InService, ReadyFor;
    var spec := config.specs[c];
    ExpectedMeans(body.expected, c, Current(s.runs, listing, config.profile, c));
    ReadyMeansInService(s, beats, spec.builder, Builder, config.profile, spec.recipe, None);
    ReadyMeansInService(s, beats, spec.destination, Destination, config.profile, spec.recipe, Some(spec.binding));
  }

  lemma StartsWhenReversible(s: State, listing: seq<RunId>, profile: ProfileId, config: Config, c: ComponentId)
    requires Inv(s) && config.profile == profile
    ensures StartingPart(ViewOf(s), listing, profile, Rollback, c).Some? <==> Reversible(s, listing, config, c)
  {
    hide AllRunsOk, AllJobsOk, Exclusive, OneAfterAnother, DeliveredOk, RootsOwned;
    var current := Current(s.runs, listing, profile, c);
    if current.Some? {
      PartOf(s, current.value, c);
      var older := s.runs[current.value].parts[c].previous;
      if older.Some? {
        HasRelease(s, older.value, c);
      }
    }
  }

  lemma {:induction false} StartsAllOrNone(v: View, listing: seq<RunId>, profile: ProfileId, operation: Operation, names: seq<ComponentId>)
    ensures StartingParts(v, listing, profile, operation, names).Some?
       <==> forall c :: c in names ==> StartingPart(v, listing, profile, operation, c).Some?
  {
    if names != [] {
      var last := names[|names| - 1];
      assert forall c :: c in names <==> c in names[..|names| - 1] || c == last;
      StartsAllOrNone(v, listing, profile, operation, names[..|names| - 1]);
    }
  }

  lemma {:induction false} FirstProblemIsSomebodys(v: View, beats: map<ExecutorId, Time>, listing: seq<RunId>, config: Config,
                                                   body: Request, names: seq<ComponentId>)
    requires forall c :: c in names ==> c in config.specs
    requires FirstProblem(v, beats, listing, config, body, names).Some?
    ensures exists c :: c in names
              && ComponentProblem(v, beats, listing, config, body, c) == FirstProblem(v, beats, listing, config, body, names)
  {
    hide ComponentProblem;
    if ComponentProblem(v, beats, listing, config, body, names[0]).None? {
      FirstProblemIsSomebodys(v, beats, listing, config, body, names[1..]);
    }
  }

  /** The reasons to refuse a request for the stored revision of a project. */
  ghost predicate RefusedFor(s: State, beats: map<ExecutorId, Time>, listing: seq<RunId>, config: Config, body: Request,
                             owner: bool, connected: bool, why: Refusal)
  {
    match why
    case ComponentNotFound => forall c :: c in config.specs ==> !Asked(body, c)
    case AccessDenied => !owner && exists c :: c in config.specs && Asked(body, c) && config.specs[c].recipe == NATIVE
    case TargetBusy => exists q :: q in s.runs && Blocks(s.runs[q], config, body)
    case TestRequired => exists c :: c in config.specs && Asked(body, c) && !Connected(s, beats, config, body, c)
    case CurrentConflict => exists c :: c in config.specs && Asked(body, c) && !UpToDate(s, listing, config, body, c)
    case DependencyNotDeployed => exists c :: c in config.specs && Asked(body, c) && !Supported(s, listing, config, body, c)
    case RollbackUnavailable =>
      body.operation == Rollback && exists c :: c in config.specs && Asked(body, c) && !Reversible(s, listing, config, c)
    case ConnectorOffline => body.operation == Operation.Deploy && !connected
    case _ => false
  }

  /** Every reason to refuse a request that was not seen before. */
  ghost predicate Refused(s: State, beats: map<ExecutorId, Time>, listing: seq<RunId>, body: Request, owner: bool, connected: bool,
                          why: Refusal)
  {
    if KnownRevision(s, body) then RefusedFor(s, beats, listing, s.profiles[body.profile], body, owner, connected, why)
    else why == RevisionConflict
  }

  lemma HoldsMeansBlocks(run: Run, config: Config, body: Request, names: seq<ComponentId>)
    requires forall c :: c in names <==> c in config.specs && Asked(body, c)
    ensures HoldsAny(run, config, names) <==> Blocks(run, config, body)
  {
  }

  lemma NamesAskedFor(s: State, body: Request)
    requires Inv(s) && body.profile in s.profiles
    ensures var config := s.profiles[body.profile];
            && config.profile == body.profile
            && forall c :: c in Selected(config.names, body.component) <==> c in config.specs && Asked(body, c)
  {
    hide AllRunsOk, AllJobsOk, Exclusive, OneAfterAnother, DeliveredOk, RootsOwned;
    StoredNames(s);
    StoredProfileIsValid(s, body.profile);
  }

  /** A request is accepted exactly when there is no reason to refuse it, and refused only for a reason that holds. */
  lemma AnsweredForCause(h: seq<State>, k: nat, beats: map<ExecutorId, Time>, listing: seq<RunId>, actor: Actor, body: Request,
                         owner: bool, connected: bool)
    requires History(h) && k < |h|
    ensures var answer := NewRun(ViewOf(h[k]), beats, listing, actor, body, owner, connected);
            && (answer.Ok? <==> forall why :: !Refused(h[k], beats, listing, body, owner, connected, why))
            && (answer.Err? ==> Refused(h[k], beats, listing, body, owner, connected, answer.error))
  {
    hide History, Inv, InService, ReadyFor, HoldsAny, Blocks, StartingPart, StartingParts, FirstProblem, ComponentProblem;
    hide Connected, UpToDate, Supported, Reversible, Selected;
    var s := h[k];
    EveryStateIsSound(h, k);
    if KnownRevision(s, body) {
      var config := s.profiles[body.profile];
      var names := Selected(config.names, body.component);
      NamesAskedFor(s, body);
      ProblemMeans(s, beats, listing, config, body, names);
      StartsMean(s, listing, config, body, names);
      forall q | q in s.runs ensures HoldsAny(s.runs[q], config, names) <==> Blocks(s.runs[q], config, body) {
        HoldsMeansBlocks(s.runs[q], config, body, names);
      }
      AnsweredFor(s, beats, listing, actor, config, body, names, owner, connected);
      var answer := NewRun(ViewOf(s), beats, listing, actor, body, owner, connected);
      if answer.Ok? {
        forall why ensures !Refused(s, beats, listing, body, owner, connected, why) {
          assert !RefusedFor(s, beats, listing, config, body, owner, connected, why);
        }
      } else {
        assert Refused(s, beats, listing, body, owner, connected, answer.error);
      }
    } else {
      assert Refused(s, beats, listing, body, owner, connected, RevisionConflict);
    }
  }

  lemma AnsweredFor(s: State, beats: map<ExecutorId, Time>, listing: seq<RunId>, actor: Actor, config: Config, body: Request,
                    names: seq<ComponentId>, owner: bool, connected: bool)
    requires KnownRevision(s, body) && config == s.profiles[body.profile] && config.profile == body.profile
    requires names == Selected(config.names, body.component)
    requires forall c :: c in names <==> c in config.specs && Asked(body, c)
    requires forall q :: q in s.runs ==> (HoldsAny(s.runs[q], config, names) <==> Blocks(s.runs[q], config, body))
    requires var problem := FirstProblem(ViewOf(s), beats, listing, config, body, names);
             && (problem.None? <==>
                   !RefusedFor(s, beats, listing, config, body, owner, connected, TestRequired)
                   && !RefusedFor(s, beats, listing, config, body, owner, connected, CurrentConflict)
                   && !RefusedFor(s, beats, listing, config, body, owner, connected, DependencyNotDeployed))
             && (problem.Some? ==>
                   && RefusedFor(s, beats, listing, config, body, owner, connected, problem.value)
                   && problem.value in {TestRequired, CurrentConflict, DependencyNotDeployed})
    requires StartingParts(ViewOf(s), listing, config.profile, body.operation, names).None?
        <==> RefusedFor(s, beats, listing, config, body, owner, connected, RollbackUnavailable)
    ensures var answer := NewRun(ViewOf(s), beats, listing, actor, body, owner, connected);
            && (answer.Ok? ==> forall why :: !RefusedFor(s, beats, listing, config, body, owner, connected, why))
            && (answer.Err? ==> RefusedFor(s, beats, listing, config, body, owner, connected, answer.error))
  {
    hide InService, ReadyFor, HoldsAny, Blocks, StartingPart, StartingParts, FirstProblem, ComponentProblem;
    hide Connected, UpToDate, Supported, Reversible, Selected, Asked;
    var answer := NewRun(ViewOf(s), beats, listing, actor, body, owner, connected);
    assert names == [] <==> forall c :: c in config.specs ==> !Asked(body, c) by {
      if names != [] {
        assert names[0] in names;
      }
    }
    if answer.Ok? {
      forall why ensures !RefusedFor(s, beats, listing, config, body, owner, connected, why) {
      }
    }
  }

  lemma ProblemMeans(s: State, beats: map<ExecutorId, Time>, listing: seq<RunId>, config: Config, body: Request, names: seq<ComponentId>)
    requires forall c :: c in names <==> c in config.specs && Asked(body, c)
    ensures var problem := FirstProblem(ViewOf(s), beats, listing, config, body, names);
            && (problem.None? <==>
                  forall c :: c in config.specs && Asked(body, c) ==>
                    && Connected(s, beats, config, body, c) && UpToDate(s, listing, config, body, c)
                    && Supported(s, listing, config, body, c))
            && (problem.Some? ==>
                  || (problem.value == TestRequired
                      && exists c :: c in config.specs && Asked(body, c) && !Connected(s, beats, config, body, c))
                  || (problem.value == CurrentConflict
                      && exists c :: c in config.specs && Asked(body, c) && !UpToDate(s, listing, config, body, c))
                  || (problem.value == DependencyNotDeployed
                      && exists c :: c in config.specs && Asked(body, c) && !Supported(s, listing, config, body, c)))
  {
    hide Connected, UpToDate, Supported, ComponentProblem, FirstProblem, Asked;
    forall c | c in names
      ensures ComponentProblem(ViewOf(s), beats, listing, config, body, c)
           == if !Connected(s, beats, config, body, c) then Some(TestRequired)
              else if !UpToDate(s, listing, config, body, c) then Some(CurrentConflict)
              else if !Supported(s, listing, config, body, c) then Some(DependencyNotDeployed)
              else None
    {
      ComponentProblemIs(s, beats, listing, config, body, c);
    }
    if FirstProblem(ViewOf(s), beats, listing, config, body, names).Some? {
      FirstProblemIsSomebodys(ViewOf(s), beats, listing, config, body, names);
    }
  }

  lemma StartsMean(s: State, listing: seq<RunId>, config: Config, body: Request, names: seq<ComponentId>)
    requires Inv(s) && forall c :: c in names <==> c in config.specs && Asked(body, c)
    ensures StartingParts(ViewOf(s), listing, config.profile, body.operation, names).None?
       <==> body.operation == Rollback && exists c :: c in config.specs && Asked(body, c) && !Reversible(s, listing, config, c)
  {
    hide Inv, Reversible, Asked;
    StartsAllOrNone(ViewOf(s), listing, config.profile, body.operation, names);
    forall c | c in names && body.operation == Rollback
      ensures StartingPart(ViewOf(s), listing, config.profile, Rollback, c).Some? <==> Reversible(s, listing, config, c)
    {
      StartsWhenReversible(s, listing, config.profile, config, c);
    }
  }

  /**
   Whoever's request is accepted knew, for every component, the release its destination last took: the run starts
   from it. And a component is deployed on its own only on dependencies that are deployed.
   */
  lemma AcceptedOnWhatIsDeployed(h: seq<State>, k: nat, beats: map<ExecutorId, Time>, listing: seq<RunId>, actor: Actor,
                                 body: Request, owner: bool, connected: bool, c: ComponentId)
    requires History(h) && k < |h| && Lists(listing, h[k].runs.Keys)
    requires NewRun(ViewOf(h[k]), beats, listing, actor, body, owner, connected).Ok?
    requires c in NewRun(ViewOf(h[k]), beats, listing, actor, body, owner, connected).value.parts
    ensures var s, profile := h[k], body.profile;
            var run := NewRun(ViewOf(s), beats, listing, actor, body, owner, connected).value;
            && ProfileIdle(s, profile) && run.config.profile == profile && c in run.config.specs
            && Expects(body, c, run.parts[c].previous)
            && (run.parts[c].previous.None? <==> (profile, c) !in s.delivered)
            && ((profile, c) in s.delivered ==>
                  && s.delivered[(profile, c)] in s.runs
                  && (!Tied(s, profile, c, s.delivered[(profile, c)]) ==>
                        run.parts[c].previous == Some(s.delivered[(profile, c)])))
            && (body.component.Some? ==> forall d :: d in run.config.specs[c].deps ==> (profile, d) in s.delivered)
  {
    hide History, Inv, Refused, RefusedFor, Tied, ProfileIdle, Current, NewRun;
    var s, profile := h[k], body.profile;
    EveryStateIsSound(h, k);
    StartsFromCurrent(s, beats, listing, actor, body, owner, connected, c);
    CurrentIsLastDelivered(h, k, listing, profile, c);
    if body.component.Some? {
      forall d | d in s.profiles[profile].specs[c].deps ensures (profile, d) in s.delivered {
        CurrentIsLastDelivered(h, k, listing, profile, d);
      }
    }
  }

  lemma StartsFromCurrent(s: State, beats: map<ExecutorId, Time>, listing: seq<RunId>, actor: Actor, body: Request,
                          owner: bool, connected: bool, c: ComponentId)
    requires Inv(s) && NewRun(ViewOf(s), beats, listing, actor, body, owner, connected).Ok?
    requires c in NewRun(ViewOf(s), beats, listing, actor, body, owner, connected).value.parts
    ensures var run := NewRun(ViewOf(s), beats, listing, actor, body, owner, connected).value;
            && body.profile in s.profiles && run.config == s.profiles[body.profile] && run.config.profile == body.profile
            && ProfileIdle(s, body.profile) && c in run.config.specs
            && run.parts[c].previous == Current(s.runs, listing, body.profile, c)
            && UpToDate(s, listing, run.config, body, c) && Supported(s, listing, run.config, body, c)
  {
    hide Inv, InService, ReadyFor, ComponentProblem, Connected, Selected, Current;
    var config := NewRun(ViewOf(s), beats, listing, actor, body, owner, connected).value.config;
    var names := Selected(config.names, body.component);
    NamesAskedFor(s, body);
    ComponentProblemIs(s, beats, listing, config, body, c);
    StartsAtCurrent(ViewOf(s), listing, config.profile, body.operation, c);
    forall q | q in s.runs && s.runs[q].config.profile == config.profile ensures !Unfinished(s.runs[q]) {
      assert !HoldsAny(s.runs[q], config, names);
    }
  }

  lemma StartsAtCurrent(v: View, listing: seq<RunId>, profile: ProfileId, operation: Operation, c: ComponentId)
    requires StartingPart(v, listing, profile, operation, c).Some?
    ensures StartingPart(v, listing, profile, operation, c).value.previous == Current(v.runs, listing, profile, c)
  {
  }

  // ---------- Executors ----------

  /** A credential is good while its executor is enrolled, not revoked and unexpired, and its owner still permitted. */
  lemma CredentialIsGood(s: State, e: ExecutorId, permitted: bool)
    ensures AuthenticationProblem(s.executors, e, permitted, s.clock) == None
       <==> e in s.executors && s.executors[e].active && s.clock < s.executors[e].expires && permitted
    ensures AuthenticationProblem(s.executors, e, permitted, s.clock) == Some(AccessDenied)
       <==> e in s.executors && s.executors[e].active && s.clock < s.executors[e].expires && !permitted
  {
  }

  /** A revoked or expired executor is refused for good, whatever it asks. */
  lemma RevokedIsRefused(h: seq<State>, i: nat, k: nat, e: ExecutorId, permitted: bool, j: JobId, system: string, bindings: seq<Binding>)
    requires History(h) && i <= k < |h| && e in h[i].executors
    requires !h[i].executors[e].active || h[i].executors[e].expires <= h[i].clock
    ensures AuthenticationProblem(h[k].executors, e, permitted, h[k].clock) == Some(AuthenticationRequired)
    ensures OwnJobProblem(h[k], e, j, permitted) == Some(AuthenticationRequired)
    ensures HeartbeatProblem(h[k], e, permitted, system, bindings) == Some(AuthenticationRequired)
  {
    hide History;
    NothingIsForgotten(h, i, k);
    assert ExecutorLater(h[i].executors[e], h[k].executors[e]);
  }

  /** An executor is given exactly unexpired work of its own project and role, for a run that is running and permitted. */
  lemma WorkIsHandedOut(h: seq<State>, k: nat, j: JobId, e: ExecutorId, permitted: set<Actor>)
    requires History(h) && k < |h| && j in h[k].jobs && e in h[k].executors
    ensures h[k].jobs[j].run in h[k].runs
    ensures var s, job := h[k], h[k].jobs[j];
            Offered(s, j, e) && ClaimAnswer(s, j, e, permitted).None? <==>
              && job.executor == e && job.status == Queued && s.clock < job.expires
              && s.executors[e].profile == job.profile
              && (s.executors[e].role == Builder <==> job.kind == BuildJob)
              && s.runs[job.run].status == Running && s.runs[job.run].actor in permitted
    ensures var s, job := h[k], h[k].jobs[j];
            ClaimAnswer(s, j, e, permitted) == Some(JobExpired)
            <==> s.runs[job.run].status != Running || s.runs[job.run].actor !in permitted
  {
    hide History, Inv;
    EveryStateIsSound(h, k);
    RunOfJob(h[k], j);
  }

  /** The first heartbeat of a destination is refused exactly if some path would belong to it and to another one of its system. */
  lemma HeartbeatIsRefused(s: State, e: ExecutorId, owner: bool, system: string, bindings: seq<Binding>)
    requires e in s.executors && s.executors[e].active && s.clock < s.executors[e].expires && owner
    ensures HeartbeatProblem(s, e, owner, system, bindings) == Some(EnrollmentChanged)
       <==> s.executors[e].system.Some? && (s.executors[e].system.value != system || s.executors[e].bindings != bindings)
    ensures HeartbeatProblem(s, e, owner, system, bindings) == Some(DestinationOwned)
       <==> && s.executors[e].system.None? && s.executors[e].role == Destination
            && exists d, x, y, path ::
                 && d in s.executors && d != e && s.executors[d].active && s.executors[d].role == Destination
                 && s.executors[d].system == Some(system) && x in s.executors[d].bindings && y in bindings
                 && Under(path, x.root) && Under(path, y.root)
    ensures HeartbeatProblem(s, e, owner, system, bindings) in {None, Some(EnrollmentChanged), Some(DestinationOwned)}
  {
    hide Overlap, Under;
    if Overlapping(s.executors, e, system, bindings) {
      var d :| d in s.executors && d != e && s.executors[d].active && s.executors[d].role == Destination
               && s.executors[d].system == Some(system) && SharesRoot(s.executors[d].bindings, bindings);
      var x :| x in s.executors[d].bindings && exists y :: y in bindings && Overlap(x.root, y.root);
      var y :| y in bindings && Overlap(x.root, y.root);
      OverlapMeansSharedPath(x.root, y.root);
      var path :| Under(path, x.root) && Under(path, y.root);
    }
    forall d, x, y, path |
      && d in s.executors && d != e && s.executors[d].active && s.executors[d].role == Destination
      && s.executors[d].system == Some(system) && x in s.executors[d].bindings && y in bindings
      && Under(path, x.root) && Under(path, y.root)
      ensures Overlapping(s.executors, e, system, bindings)
    {
      OverlapMeansSharedPath(x.root, y.root);
      assert SharesRoot(s.executors[d].bindings, bindings);
    }
  }

  // ---------- Closing an interrupted build ----------

  /**
   A run can be closed exactly by its requester, for the source it was built from, while it waits for recovery, one of
   its builds was interrupted, and nothing but failed or uncertain builds without output was ever made for it.
   */
  lemma ClosedOnlyWithoutTrace(h: seq<State>, k: nat, r: RunId, actor: Actor, owner: bool, head: Head, change: nat)
    requires History(h) && k < |h| && r in h[k].runs && h[k].runs[r].resolution.None?
    ensures CloseProblem(h[k], r, actor, owner, head, change) == None <==>
              && owner && h[k].runs[r].actor == actor && h[k].runs[r].sourceHead == Some(head)
              && h[k].runs[r].status == RunUncertain
              && (forall j :: j in h[k].jobs && h[k].jobs[j].run == r ==>
                    && h[k].jobs[j].kind == BuildJob && h[k].jobs[j].output == None
                    && h[k].jobs[j].status in {JobFailed, JobUncertain})
              && (exists j :: j in h[k].jobs && h[k].jobs[j].run == r && h[k].jobs[j].status == JobUncertain
                           && h[k].jobs[j].error == Some(5))
    ensures CloseProblem(h[k], r, actor, owner, head, change) == None ==> forall c :: !Deployed(h[k].jobs, r, c)
  {
    hide History, AllRunsOk, AllJobsOk, Exclusive, OneAfterAnother, DeliveredOk, RootsOwned;
    var s := h[k];
    EveryStateIsSound(h, k);
    if forall j :: j in s.jobs && s.jobs[j].run == r ==> s.jobs[j].kind == BuildJob && s.jobs[j].output.None? {
      forall c | c in s.runs[r].parts && s.runs[r].sourceHead.Some?
        ensures s.runs[r].parts[c].status != PartSucceeded && s.runs[r].parts[c].artifact.None?
      {
        NothingWasMade(s, r, c);
      }
    }
  }

  lemma NothingWasMade(s: State, r: RunId, c: ComponentId)
    requires Inv(s) && r in s.runs && c in s.runs[r].parts && s.runs[r].sourceHead.Some?
    requires forall j :: j in s.jobs && s.jobs[j].run == r ==> s.jobs[j].kind == BuildJob && s.jobs[j].output.None?
    ensures s.runs[r].parts[c].status != PartSucceeded && s.runs[r].parts[c].artifact.None?
  {
    hide AllRunsOk, AllJobsOk, Exclusive, OneAfterAnother, DeliveredOk, RootsOwned, Equipped, ValidConfig;
    RunOf(s, r);
    PartOf(s, r, c);
  }

  // ---------- How runs end ----------

  /** The status of a run that is over says how many of its parts succeeded, and every failed part says why. */
  ghost predicate SaysHowItEnded(run: Run) {
    && (run.status == RunSucceeded ==> forall c :: c in run.parts ==> run.parts[c].status == PartSucceeded)
    && (run.status == RunPartial ==>
          && (exists c :: c in run.parts && run.parts[c].status == PartSucceeded)
          && (exists c :: c in run.parts && run.parts[c].status != PartSucceeded))
    && (run.status == RunFailed ==> forall c :: c in run.parts ==> run.parts[c].status != PartSucceeded)
    && forall c :: c in run.parts && run.parts[c].status in {PartFailed, Blocked} ==> run.parts[c].error.Some?
  }

  lemma StepSaysHow(s: State, a: Action, now: Time, r: RunId)
    requires Enabled(s, a, now) && r in Effect(s, a, now).runs && (r in s.runs ==> SaysHowItEnded(s.runs[r]))
    ensures SaysHowItEnded(Effect(s, a, now).runs[r])
  {
    hide MayAddJob, MayBind, ValidConfig, SaysHowItEnded, MaySavePass, MayAddRun, Expired;
    match a
    case AddRun(q, run) =>
      if q == r { NewRunSays(s, r, run, now); }
    case SavePass(q, run) =>
      if q == r { PassSays(s, r, run, now); }
    case SaveExpired(q, error) =>
      if q == r { ExpirySays(s.jobs, r, s.runs[r], now, error); }
    case SaveUnpublished(q, error) =>
      if q == r { FailureSays(s.runs[r], Unpublished(s.runs[r], now, error), error); }
    case CloseRun(q, resolution, error) =>
      if q == r { FailureSays(s.runs[r], Closed(s.runs[r], resolution, error), error); }
    case SaveWaiting(q) =>
      if q == r { WaitingSays(s.runs[r], now); }
    case _ =>
  }

  lemma WaitingSays(run: Run, now: Time)
    requires SaysHowItEnded(run)
    ensures SaysHowItEnded(run.(updated := now))
  {
  }

  lemma NewRunSays(s: State, r: RunId, run: Run, now: Time)
    requires MayAddRun(s, r, run, now)
    ensures SaysHowItEnded(run)
  {
    forall c | c in run.parts ensures run.parts[c].status == Pending {
      assert NewPart(s, run, c);
    }
  }

  lemma PassSays(s: State, r: RunId, run: Run, now: Time)
    requires MaySavePass(s, r, run, now) && (r in s.runs ==> SaysHowItEnded(s.runs[r]))
    ensures SaysHowItEnded(run)
  {
    forall c | c in run.parts && run.parts[c].status in {PartFailed, Blocked} ensures run.parts[c].error.Some? {
      assert PartMoves(s.jobs, r, s.runs[r], run, c);
    }
  }

  lemma ExpirySays(jobs: map<JobId, Job>, r: RunId, run: Run, now: Time, error: ErrorCode)
    requires SaysHowItEnded(run)
    ensures SaysHowItEnded(Expired(jobs, r, run, now, error))
  {
  }

  lemma FailureSays(run: Run, ended: Run, error: ErrorCode)
    requires ended.status == RunFailed && ended.parts == AllFailed(run.parts, error)
    ensures SaysHowItEnded(ended)
  {
  }

  lemma {:induction false} EveryRunSaysHow(h: seq<State>, k: nat, r: RunId)
    requires History(h) && k < |h| && r in h[k].runs
    ensures SaysHowItEnded(h[k].runs[r])
  {
    hide History, SaysHowItEnded, Effect, Enabled;
    if k == 0 {
      NoRunsAtFirst(h);
    } else {
      if r in h[k - 1].runs {
        EveryRunSaysHow(h, k - 1, r);
      }
      var a, now := StepOf(h, k - 1);
      StepSaysHow(h[k - 1], a, now, r);
    }
  }

  lemma NoRunsAtFirst(h: seq<State>)
    requires History(h)
    ensures h[0].runs == map[]
  {
  }

  /** A run that is over succeeded, failed or is partial exactly as all, none or some of its components were deployed. */
  lemma EndedAsDeployed(h: seq<State>, k: nat, r: RunId)
    requires History(h) && k < |h| && r in h[k].runs
    requires h[k].runs[r].status in {RunSucceeded, RunPartial, RunFailed}
    ensures var s, run := h[k], h[k].runs[r];
            && (run.status == RunSucceeded <==> forall c :: c in run.parts ==> Deployed(s.jobs, r, c))
            && (run.status == RunFailed <==> forall c :: c in run.parts ==> !Deployed(s.jobs, r, c))
            && forall c :: c in run.parts && !Deployed(s.jobs, r, c) ==> run.parts[c].error.Some?
  {
    hide History, AllRunsOk, AllJobsOk, Exclusive, OneAfterAnother, DeliveredOk, RootsOwned, PartOk, ValidConfig;
    var s, run := h[k], h[k].runs[r];
    EveryStateIsSound(h, k);
    EveryRunSaysHow(h, k, r);
    RunOf(s, r);
    forall c | c in run.parts
      ensures run.parts[c].status == PartSucceeded <==> Deployed(s.jobs, r, c)
      ensures run.parts[c].status in {PartSucceeded, PartFailed, Blocked}
    {
      EndedPart(s, r, c);
    }
    var some :| some in run.parts;
  }

  lemma EndedPart(s: State, r: RunId, c: ComponentId)
    requires Inv(s) && r in s.runs && !Unfinished(s.runs[r]) && c in s.runs[r].parts
    ensures s.runs[r].parts[c].status == PartSucceeded <==> Deployed(s.jobs, r, c)
    ensures s.runs[r].parts[c].status in {PartSucceeded, PartFailed, Blocked}
  {
    hide AllRunsOk, AllJobsOk, Exclusive, OneAfterAnother, DeliveredOk, RootsOwned, Provenance, Equipped, ValidConfig;
    RunOf(s, r);
    PartOf(s, r, c);
  }

  // ---------- Roots ----------

  /** The same character, but for case and for which of the two separators it is. */
  ghost predicate SameCharacter(a: char, b: char) {
    || a == b
    || (a in {'/', '\\'} && b in {'/', '\\'})
    || ('A' <= a <= 'Z' && b as int == a as int + 32)
    || ('A' <= b <= 'Z' && a as int == b as int + 32)
  }

  lemma {:induction false} SlashedAt(s: string, i: nat)
    requires i < |s|
    ensures |Slashed(s)| == |s|
    ensures Slashed(s)[i] == if s[i] == '/' then '\\' else Lower(s[i])
  {
    if i > 0 {
      SlashedAt(s[1..], i - 1);
    } else if |s| > 1 {
      SlashedAt(s[1..], 0);
    }
  }

  lemma SpellingIsIrrelevant(a: string, b: string)
    requires |a| == |b| && forall i :: 0 <= i < |a| ==> SameCharacter(a[i], b[i])
    ensures Normalized(a) == Normalized(b)
  {
    forall i | 0 <= i < |a| ensures |Slashed(a)| == |Slashed(b)| == |a| && Slashed(a)[i] == Slashed(b)[i] {
      SlashedAt(a, i);
      SlashedAt(b, i);
    }
    if a != "" {
      SlashedAt(a, 0);
      SlashedAt(b, 0);
      assert Slashed(a) == Slashed(b);
    }
  }

  lemma {:induction false} SlashedJoins(a: string, b: string)
    ensures Slashed(a + b) == Slashed(a) + Slashed(b)
  {
    if a == "" {
      assert a + b == b;
    } else {
      assert (a + b)[0] == a[0] && (a + b)[1..] == a[1..] + b;
      SlashedJoins(a[1..], b);
    }
  }

  predicate Separator(c: char) {
    c == '/' || c == '\\'
  }

  /** A root that ends in a name, as roots do. */
  ghost predicate EndsInName(s: string) {
    s != "" && !Separator(s[|s| - 1])
  }

  lemma NamesAreNotTrimmed(s: string)
    requires EndsInName(s)
    ensures Normalized(s) == Slashed(s) + "\\"
  {
    SlashedAt(s, |s| - 1);
  }

  /** What lies below a root by its path lies under it; what only begins with the same letters does not. */
  lemma UnderMeansBelow(root: string, rest: string)
    requires EndsInName(root) && EndsInName(rest)
    ensures Under(root + rest, root) <==> Separator(rest[0])
  {
    hide Normalized, Slashed;
    NamesAreNotTrimmed(root);
    NamesAreNotTrimmed(root + rest);
    SlashedJoins(root, rest);
    SlashedAt(rest, 0);
    assert Slashed(root) + Slashed(rest) + "\\" == Slashed(root) + (Slashed(rest) + "\\");
    OneMoreCharacter(Slashed(root), Slashed(rest) + "\\", '\\');
  }

  lemma OneMoreCharacter(a: string, b: string, x: char)
    requires b != ""
    ensures Prefix(a + [x], a + b) <==> b[0] == x
  {
    assert (a + b)[..|a| + 1] == a + [b[0]];
    assert (a + [x])[|a|] == x && (a + [b[0]])[|a|] == b[0];
  }
}
