/** What each call of the single-target store decides, as functions of the records it reads. */
module ServixCalls {
  import opened Basics
  import opened Sorting
  import opened Servix

  datatype Problem =
    | AccessDenied | RequestConflict | TargetBusy | ConnectorOffline | ProjectArchived | CurrentChanged
    | NotSelectable | RollbackChanged | ReleaseUnavailable | StorageUnavailable

  const SHOWN: nat := 30

  // ---------- Reading the records ----------

  /** An open run takes its receipt, or is given up when it expired or its build is gone. */
  function SettledRun(run: Run, results: map<RequestId, Receipt>, running: bool, now: Time): Run {
    if !Open(run) then run
    else if run.id in results then Settled(run, results[run.id], now)
    else if Interrupted(run, running, now) then Stopped(run, now)
    else run
  }

  /** No receipt contradicts its open run. */
  predicate Readable(jobs: map<RequestId, Run>, results: map<RequestId, Receipt>) {
    forall id :: id in jobs && id in results && Open(jobs[id]) ==> Matches(jobs[id], results[id])
  }

  /** The records that reading leaves, except for those in `todo`. */
  ghost function SettledBut(s: State, todo: set<RequestId>): map<RequestId, Run> {
    map id | id in s.jobs :: if id in todo then s.jobs[id] else SettledRun(s.jobs[id], s.results, id in s.tasks, s.clock)
  }

  ghost function AfterReading(s: State): State {
    s.(jobs := SettledBut(s, {}))
  }

  predicate CreatedLater(a: Run, b: Run) {
    a.created > b.created
  }

  predicate ReleasedLater(a: Run, b: Run) {
    a.updated > b.updated || (a.updated == b.updated && a.created > b.created)
  }

  function Runs(jobs: map<RequestId, Run>, listing: seq<RequestId>): seq<Run>
    requires forall id :: id in listing ==> id in jobs
  {
    Sort(seq(|listing|, i requires 0 <= i < |listing| => jobs[listing[i]]), CreatedLater)
  }

  function Successes(runs: seq<Run>): (r: seq<Run>)
    ensures forall run :: run in r <==> run in runs && run.status == Succeeded
    ensures (forall i, j :: 0 <= i < j < |runs| ==> runs[i] != runs[j]) ==> forall i, j :: 0 <= i < j < |r| ==> r[i] != r[j]
  {
    if runs == [] then []
    else
      var rest, last := Successes(runs[..|runs| - 1]), runs[|runs| - 1];
      assert runs == runs[..|runs| - 1] + [last];
      if last.status == Succeeded then rest + [last] else rest
  }

  /** Every succeeded run, the latest release first. */
  function Completed(runs: seq<Run>): seq<Run> {
    Sort(Successes(runs), ReleasedLater)
  }

  lemma CompletedHolds(jobs: map<RequestId, Run>, listing: seq<RequestId>)
    requires Lists(listing, jobs.Keys) && forall id :: id in jobs ==> jobs[id].id == id
    ensures var completed := Completed(Runs(jobs, listing));
            && (forall run :: run in completed <==> run.id in jobs && jobs[run.id] == run && run.status == Succeeded)
            && (forall i, j :: 0 <= i < j < |completed| ==> completed[i].id != completed[j].id)
            && Ordered(completed, ReleasedLater)
  {
    hide Runs, Completed, Ordered;
    var runs := Runs(jobs, listing);
    RunsHold(jobs, listing);
    CompletedOf(runs);
    var completed := Completed(runs);
    forall i, j | 0 <= i < j < |completed| ensures completed[i].id != completed[j].id {
      assert completed[i] in completed && completed[j] in completed;
    }
  }

  lemma RunsHold(jobs: map<RequestId, Run>, listing: seq<RequestId>)
    requires Lists(listing, jobs.Keys) && forall id :: id in jobs ==> jobs[id].id == id
    ensures forall run: Run :: run in Runs(jobs, listing) <==> run.id in jobs && jobs[run.id] == run
    ensures forall i, j :: 0 <= i < j < |Runs(jobs, listing)| ==> Runs(jobs, listing)[i] != Runs(jobs, listing)[j]
  {
    var listed := seq(|listing|, i requires 0 <= i < |listing| => jobs[listing[i]]);
    ListedOnce(jobs, listing, listed);
    SameElements(Runs(jobs, listing), listed);
    StaysDistinct(listed, Runs(jobs, listing));
  }

  lemma CompletedOf(runs: seq<Run>)
    requires forall i, j :: 0 <= i < j < |runs| ==> runs[i] != runs[j]
    ensures var completed := Completed(runs);
            && (forall run: Run :: run in completed <==> run in runs && run.status == Succeeded)
            && (forall i, j :: 0 <= i < j < |completed| ==> completed[i] != completed[j])
            && Ordered(completed, ReleasedLater)
  {
    hide Successes, Ordered;
    SameElements(Completed(runs), Successes(runs));
    StaysDistinct(Successes(runs), Completed(runs));
    SortOrders(Successes(runs), ReleasedLater);
  }

  lemma ListedOnce(jobs: map<RequestId, Run>, listing: seq<RequestId>, listed: seq<Run>)
    requires Lists(listing, jobs.Keys) && (forall id :: id in jobs ==> jobs[id].id == id)
    requires |listed| == |listing| && forall i :: 0 <= i < |listing| ==> listed[i] == jobs[listing[i]]
    ensures forall run: Run :: run in listed <==> run.id in jobs && jobs[run.id] == run
    ensures forall i, j :: 0 <= i < j < |listed| ==> listed[i] != listed[j]
  {
    forall run: Run | run.id in jobs && jobs[run.id] == run ensures run in listed {
      assert run.id in listing;
      var i :| 0 <= i < |listing| && listing[i] == run.id;
      assert listed[i] == run;
    }
    forall i, j | 0 <= i < j < |listed| ensures listed[i] != listed[j] {
      assert listed[i].id == listing[i] && listed[j].id == listing[j];
    }
  }

  // ---------- Saved releases ----------

  /** The deployment whose saved files can be activated again for this run. */
  function SavedRelease(run: Run, jobs: map<RequestId, Run>, builds: map<RequestId, Build>, verify: bool)
    : (origin: Option<RequestId>)
    ensures origin.Some? ==>
              && origin.value in jobs && origin.value in builds && jobs[origin.value].status == Succeeded
              && jobs[origin.value].release.None? && jobs[origin.value].head.Some?
              && jobs[origin.value].head == run.head && jobs[origin.value].digest == run.digest
              && run.digest == Some(builds[origin.value].manifest)
              && (verify ==> builds[origin.value].intact)
  {
    var o := if run.release.Some? then run.release.value else run.id;
    if o in jobs && jobs[o].status == Succeeded && jobs[o].release.None? && jobs[o].head.Some?
       && jobs[o].head == run.head && jobs[o].digest == run.digest
       && o in builds && run.digest == Some(builds[o].manifest) && (verify ==> builds[o].intact)
    then Some(o) else None
  }

  predicate Differs(run: Run, current: Run) {
    run.digest != current.digest
  }

  predicate RollbackCandidate(completed: seq<Run>, i: nat, jobs: map<RequestId, Run>, builds: map<RequestId, Build>)
    requires i < |completed|
  {
    Differs(completed[i], completed[0]) && SavedRelease(completed[i], jobs, builds, false).Some?
  }

  /** The first of n completed runs with another artifact whose release is saved; n when there is none. */
  function RollbackAt(completed: seq<Run>, n: nat, jobs: map<RequestId, Run>, builds: map<RequestId, Build>): (k: nat)
    requires n <= |completed|
    ensures k <= n && (k < n ==> RollbackCandidate(completed, k, jobs, builds))
    ensures forall i :: 0 <= i < k ==> !RollbackCandidate(completed, i, jobs, builds)
  {
    if n == 0 then 0
    else
      var k := RollbackAt(completed, n - 1, jobs, builds);
      if k < n - 1 || RollbackCandidate(completed, n - 1, jobs, builds) then k else n
  }

  /** What `restore` compares a requested rollback with. */
  function RollbackTarget(completed: seq<Run>, jobs: map<RequestId, Run>, builds: map<RequestId, Build>): Option<RequestId> {
    var k := RollbackAt(completed, |completed|, jobs, builds);
    if k < |completed| then Some(completed[k].id) else None
  }

  // ---------- state ----------

  datatype View = View(runs: seq<Run>, current: Option<RequestId>, rollback: Option<RequestId>, restorable: seq<RequestId>)

  function First<T>(s: seq<T>, n: nat): seq<T> {
    if n <= |s| then s[..n] else s
  }

  function Restorable(shown: seq<Run>, jobs: map<RequestId, Run>, builds: map<RequestId, Build>): (ids: seq<RequestId>)
    ensures forall id :: id in ids <==> exists run :: run in shown && run.id == id && SavedRelease(run, jobs, builds, false).Some?
  {
    if shown == [] then []
    else
      var rest, last := Restorable(shown[..|shown| - 1], jobs, builds), shown[|shown| - 1];
      assert shown == shown[..|shown| - 1] + [last];
      if SavedRelease(last, jobs, builds, false).Some? then rest + [last.id] else rest
  }

  predicate Offered(completed: seq<Run>, i: nat, restorable: seq<RequestId>)
    requires i < |completed|
  {
    Differs(completed[i], completed[0]) && completed[i].id in restorable
  }

  /** The first completed run that differs from the current one and is in the list. */
  function OfferedAt(completed: seq<Run>, n: nat, restorable: seq<RequestId>): (k: nat)
    requires n <= |completed|
    ensures k <= n && (k < n ==> Offered(completed, k, restorable))
    ensures forall i :: 0 <= i < k ==> !Offered(completed, i, restorable)
  {
    if n == 0 then 0
    else
      var k := OfferedAt(completed, n - 1, restorable);
      if k < n - 1 || Offered(completed, n - 1, restorable) then k else n
  }

  function StateView(jobs: map<RequestId, Run>, builds: map<RequestId, Build>, listing: seq<RequestId>): View
    requires forall id :: id in listing ==> id in jobs
  {
    var runs := Runs(jobs, listing);
    var completed := Completed(runs);
    var restorable := Restorable(First(completed, SHOWN), jobs, builds);
    var k := OfferedAt(completed, |completed|, restorable);
    View(First(runs, SHOWN), if completed == [] then None else Some(completed[0].id),
         if k < |completed| then Some(completed[k].id) else None, restorable)
  }

  /**
   The rollback that `state` offers is the one `restore` accepts, except that `state` looks only at the
   thirty latest successes: it offers none exactly when the first candidate is further back.
   */
  lemma OfferedIsAccepted(jobs: map<RequestId, Run>, builds: map<RequestId, Build>, listing: seq<RequestId>)
    requires Lists(listing, jobs.Keys) && forall id :: id in jobs ==> jobs[id].id == id
    ensures var completed := Completed(Runs(jobs, listing));
            var k := RollbackAt(completed, |completed|, jobs, builds);
            StateView(jobs, builds, listing).rollback ==
            (if k < SHOWN then RollbackTarget(completed, jobs, builds) else None)
  {
    hide Completed, Runs, Restorable, SavedRelease, Differs;
    var completed := Completed(Runs(jobs, listing));
    var restorable := Restorable(First(completed, SHOWN), jobs, builds);
    CompletedHolds(jobs, listing);
    forall i | 0 <= i < |completed|
      ensures Offered(completed, i, restorable) <==> i < SHOWN && RollbackCandidate(completed, i, jobs, builds)
    {
      OfferedMeans(completed, i, jobs, builds);
    }
  }

  lemma OfferedMeans(completed: seq<Run>, i: nat, jobs: map<RequestId, Run>, builds: map<RequestId, Build>)
    requires i < |completed| && forall a, b :: 0 <= a < b < |completed| ==> completed[a].id != completed[b].id
    ensures Offered(completed, i, Restorable(First(completed, SHOWN), jobs, builds))
       <==> i < SHOWN && RollbackCandidate(completed, i, jobs, builds)
  {
    hide SavedRelease, Differs;
    var shown := First(completed, SHOWN);
    if i < SHOWN {
      assert shown[i] == completed[i];
    }
    assert forall run :: run in shown && run.id == completed[i].id ==> run == completed[i] && i < SHOWN;
  }

  // ---------- request ----------

  /** What a deployment is asked with, and what the world answers while it is decided. */
  datatype DeployRequest = DeployRequest(id: RequestId, connector: Option<nat>, change: nat)
  datatype World = World(allowed: bool, archived: bool, online: bool, publisher: bool, head: Head)

  ghost function RequestAnswer(jobs: map<RequestId, Run>, listing: seq<RequestId>, actor: Actor, body: DeployRequest,
                               world: World, now: Time): Result<Run, Problem>
    requires forall id :: id in listing ==> id in jobs
  {
    if body.id in jobs then
      if jobs[body.id].actor == actor && jobs[body.id].connector == body.connector && jobs[body.id].change == body.change
      then Ok(jobs[body.id]) else Err(RequestConflict)
    else if !Idle(jobs) then Err(TargetBusy)
    else if world.publisher && (body.connector.None? || !world.online) then Err(ConnectorOffline)
    else if world.archived then Err(ProjectArchived)
    else
      var completed := Completed(Runs(jobs, listing));
      Ok(Run(body.id, actor, body.change, Deploy, body.connector, None,
             if completed == [] then None else Some(completed[0].id),
             if world.publisher then Publishing else Building, if world.publisher then None else Some(world.head),
             None, now, now, now + LIFETIME, None))
  }

  // ---------- restore ----------

  datatype RestoreRequest = RestoreRequest(
    id: RequestId, expected: RequestId, restore: RequestId, operation: Operation, change: nat)

  /** The run a repeated restore must have led to. */
  predicate SameRestore(run: Run, jobs: map<RequestId, Run>, actor: Actor, body: RestoreRequest) {
    && run.actor == actor && run.change == body.change && run.operation == body.operation
    && run.previous == Some(body.expected)
    && run.release == (if body.restore !in jobs then None
                       else if jobs[body.restore].release.Some? then jobs[body.restore].release else Some(body.restore))
  }

  ghost function RestoreAnswer(jobs: map<RequestId, Run>, builds: map<RequestId, Build>, listing: seq<RequestId>, actor: Actor,
                               body: RestoreRequest, archived: bool, now: Time): Result<Run, Problem>
    requires forall id :: id in listing ==> id in jobs
  {
    if body.id in jobs then
      if SameRestore(jobs[body.id], jobs, actor, body) then Ok(jobs[body.id]) else Err(RequestConflict)
    else if !Idle(jobs) then Err(TargetBusy)
    else
      var completed := Completed(Runs(jobs, listing));
      if completed == [] || completed[0].id != body.expected then Err(CurrentChanged)
      else if body.restore !in jobs || jobs[body.restore].status != Succeeded || !Differs(jobs[body.restore], completed[0])
      then Err(NotSelectable)
      else if body.operation == Rollback && RollbackTarget(completed, jobs, builds) != Some(body.restore)
      then Err(RollbackChanged)
      else
        var origin := SavedRelease(jobs[body.restore], jobs, builds, true);
        if origin.None? || SavedRelease(completed[0], jobs, builds, true).None? then Err(ReleaseUnavailable)
        else if archived then Err(ProjectArchived)
        else
          Ok(Run(body.id, actor, body.change, body.operation, None, origin, Some(completed[0].id), Activating,
                 jobs[origin.value].head, Some(builds[origin.value].manifest), now, now, now + LIFETIME, None))
  }

  /** Every accepted restore releases an earlier deployment that succeeded, with the same head and artifact. */
  lemma AcceptedRestoreMayBeAdded(s: State, listing: seq<RequestId>, actor: Actor, body: RestoreRequest, archived: bool)
    requires Inv(s) && Lists(listing, s.jobs.Keys) && body.id !in s.jobs && body.operation != Deploy
    requires RestoreAnswer(s.jobs, s.builds, listing, actor, body, archived, s.clock).Ok?
    ensures Enabled(s, AddRestore(RestoreAnswer(s.jobs, s.builds, listing, actor, body, archived, s.clock).value))
  {
    hide Completed, Runs, RollbackTarget;
    var origin := SavedRelease(s.jobs[body.restore], s.jobs, s.builds, true);
    assert JobOk(s, origin.value);
  }

  /**
   On an idle target, asking for the rollback that `state` shows is accepted exactly when the bytes of the
   release and of the current one still match; asking for any other rollback never is.
   */
  lemma ShownRollbackIsAccepted(h: seq<State>, n: nat, listing: seq<RequestId>, actor: Actor, id: RequestId,
                                restore: RequestId, change: nat)
    requires History(h) && n < |h| && Lists(listing, h[n].jobs.Keys) && Idle(h[n].jobs) && id !in h[n].jobs
    requires StateView(h[n].jobs, h[n].builds, listing).rollback.Some?
    ensures var s := h[n];
            var view := StateView(s.jobs, s.builds, listing);
            && view.current.Some? && view.current.value in s.jobs && view.rollback.value in s.jobs
            && var body := RestoreRequest(id, view.current.value, restore, Rollback, change);
            (RestoreAnswer(s.jobs, s.builds, listing, actor, body, false, s.clock).Ok?
             <==> && view.rollback == Some(restore)
                  && SavedRelease(s.jobs[view.rollback.value], s.jobs, s.builds, true).Some?
                  && SavedRelease(s.jobs[view.current.value], s.jobs, s.builds, true).Some?)
  {
    hide Completed, Runs, History;
    var s := h[n];
    EveryStateIsSound(h, n);
    assert forall q :: q in s.jobs ==> JobOk(s, q);
    var completed := Completed(Runs(s.jobs, listing));
    CompletedHolds(s.jobs, listing);
    OfferedIsAccepted(s.jobs, s.builds, listing);
    var k := RollbackAt(completed, |completed|, s.jobs, s.builds);
    assert completed[0] in completed && completed[k] in completed;
  }

  /** A rollback that `state` does not show is accepted exactly when its candidate lies behind thirty newer successes. */
  lemma HiddenRollbackIsAccepted(s: State, listing: seq<RequestId>, actor: Actor, body: RestoreRequest)
    requires Inv(s) && Lists(listing, s.jobs.Keys) && body.id !in s.jobs && body.operation == Rollback
    requires RestoreAnswer(s.jobs, s.builds, listing, actor, body, false, s.clock).Ok?
    ensures var completed := Completed(Runs(s.jobs, listing));
            StateView(s.jobs, s.builds, listing).rollback != Some(body.restore)
            <==> RollbackAt(completed, |completed|, s.jobs, s.builds) >= SHOWN
  {
    hide Completed, Runs;
    assert forall q :: q in s.jobs ==> JobOk(s, q);
    OfferedIsAccepted(s.jobs, s.builds, listing);
  }
}
