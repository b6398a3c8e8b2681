/** What the answers of the single-target store mean, told from its records alone. */
module ServixAnswers {
  import opened Basics
  import opened Sorting
  import opened Servix
  import opened ServixCalls

  // ---------- What reading achieves ----------

  /** A receipt contradicts an open run: it is for another head or artifact, or says nothing final. */
  ghost predicate Contradicted(s: State, id: RequestId)
    requires id in s.jobs
  {
    && s.jobs[id].status in {Publishing, Building, Activating} && id in s.results
    && var receipt := s.results[id];
    !(receipt.head == s.jobs[id].head && s.jobs[id].digest == Some(receipt.digest)
      && receipt.status in {Succeeded, Failed, RecoveryRequired})
  }

  ghost predicate Uncontradicted(s: State) {
    forall id :: id in s.jobs ==> !Contradicted(s, id)
  }

  /** Reading fails exactly on a contradiction. */
  lemma ReadableMeans(s: State)
    ensures Readable(s.jobs, s.results) <==> Uncontradicted(s)
  {
  }

  /**
   Reading readable records ends every open run that has a receipt as the receipt says, gives up one that expired or
   whose build is gone, and leaves every other run as it was.
   */
  lemma ReadingSettles(h: seq<State>, k: nat, id: RequestId)
    requires History(h) && k < |h| && id in h[k].jobs
    requires Uncontradicted(h[k])
    ensures AfterReading(h[k]) == h[k].(jobs := AfterReading(h[k]).jobs) && AfterReading(h[k]).jobs.Keys == h[k].jobs.Keys
    ensures var s, run, after := h[k], h[k].jobs[id], AfterReading(h[k]).jobs[id];
            var lost := run.status in {Publishing, Building} && id !in s.tasks;
            if run.status !in {Publishing, Building, Activating} then after == run
            else if id in s.results then
              && run.status == Activating
              && after == run.(status := s.results[id].status, updated := s.clock,
                               error := if s.results[id].error.Some? then s.results[id].error else run.error)
            else if run.expires < s.clock || lost then
              after == run.(status := if run.status == Activating then RecoveryRequired else Failed,
                            error := Some(1), updated := s.clock)
            else after == run
  {
    hide History;
    EveryStateIsSound(h, k);
    assert JobOk(h[k], id);
    assert !Contradicted(h[k], id);
  }

  /** Every record says when it last changed, save that a failed hand-over leaves that of the activation. */
  lemma EveryChangeIsStamped(s: State, w: Write, id: RequestId)
    requires Enabled(s, w) && id in s.jobs && Effect(s, w).jobs[id] != s.jobs[id]
    ensures Effect(s, w).jobs[id].updated == s.clock
         || Effect(s, w).jobs[id] == s.jobs[id].(status := RecoveryRequired, error := Some(2))
  {
  }

  /** So what is left open is under way: it has its build in this process, its time and no receipt. */
  lemma OpenMeansUnderWay(h: seq<State>, k: nat, id: RequestId)
    requires History(h) && k < |h| && id in h[k].jobs
    requires Uncontradicted(h[k])
    ensures id in AfterReading(h[k]).jobs
    ensures AfterReading(h[k]).jobs[id].status in {Publishing, Building, Activating} ==>
              && h[k].clock <= h[k].jobs[id].expires && id !in h[k].results
              && (AfterReading(h[k]).jobs[id].status != Activating ==> id in h[k].tasks)
  {
    hide History, AfterReading;
    ReadingSettles(h, k, id);
  }

  /** After a restart the first reading leaves nothing publishing or building. */
  lemma RestartGivesUpBuilds(h: seq<State>, k: nat, id: RequestId)
    requires History(h) && k + 1 < |h| && h[k + 1] == Effect(h[k], Restart) && id in h[k + 1].jobs
    requires Uncontradicted(h[k + 1])
    ensures id in AfterReading(h[k + 1]).jobs && AfterReading(h[k + 1]).jobs[id].status !in {Publishing, Building}
  {
    hide History, AfterReading;
    OpenMeansUnderWay(h, k + 1, id);
  }

  // ---------- Releases ----------

  ghost predicate Released(jobs: map<RequestId, Run>, id: RequestId) {
    id in jobs && jobs[id].status == Succeeded
  }

  ghost predicate Later(a: Run, b: Run) {
    a.updated > b.updated || (a.updated == b.updated && a.created > b.created)
  }

  ghost predicate NothingLater(jobs: map<RequestId, Run>, id: RequestId) {
    Released(jobs, id) && forall r :: Released(jobs, r) ==> !Later(jobs[r], jobs[id])
  }

  /** The files of the deployment a succeeded run goes back to are on disk, for the run's own artifact. */
  ghost predicate OnDisk(s: State, id: RequestId)
    requires id in s.jobs
  {
    var run := s.jobs[id];
    var o := match run.release case Some(origin) => origin case None => id;
    o in s.builds && run.digest == Some(s.builds[o].manifest)
  }

  ghost predicate Untouched(s: State, id: RequestId)
    requires id in s.jobs
  {
    var o := match s.jobs[id].release case Some(origin) => origin case None => id;
    OnDisk(s, id) && s.builds[o].intact
  }

  /** Of a succeeded run nothing but its files can be missing. */
  lemma SavedMeansOnDisk(s: State, id: RequestId)
    requires Inv(s) && Released(s.jobs, id)
    ensures SavedRelease(s.jobs[id], s.jobs, s.builds, false).Some? <==> OnDisk(s, id)
    ensures SavedRelease(s.jobs[id], s.jobs, s.builds, true).Some? <==> Untouched(s, id)
    ensures SavedRelease(s.jobs[id], s.jobs, s.builds, true).Some? ==>
              SavedRelease(s.jobs[id], s.jobs, s.builds, true)
              == Some(match s.jobs[id].release case Some(origin) => origin case None => id)
  {
    assert JobOk(s, id);
  }

  lemma FirstIsLatest(s: State, listing: seq<RequestId>)
    requires Inv(s) && Lists(listing, s.jobs.Keys)
    ensures var completed := Completed(Runs(s.jobs, listing));
            && (completed == [] <==> forall r :: !Released(s.jobs, r))
            && (forall i :: 0 <= i < |completed| ==> Released(s.jobs, completed[i].id) && s.jobs[completed[i].id] == completed[i])
            && (forall r :: Released(s.jobs, r) ==> exists i :: 0 <= i < |completed| && completed[i].id == r)
            && (forall i, j :: 0 <= i < j < |completed| ==> !Later(completed[j], completed[i]) && completed[i].id != completed[j].id)
  {
    hide Completed, Runs;
    assert forall id :: id in s.jobs ==> JobOk(s, id);
    CompletedHolds(s.jobs, listing);
    var completed := Completed(Runs(s.jobs, listing));
    forall i | 0 <= i < |completed| ensures Released(s.jobs, completed[i].id) && s.jobs[completed[i].id] == completed[i] {
      assert completed[i] in completed;
    }
    if completed != [] {
      assert Released(s.jobs, completed[0].id);
    }
    forall r | Released(s.jobs, r) ensures exists i :: 0 <= i < |completed| && completed[i].id == r {
      assert s.jobs[r] in completed;
    }
    forall i, j | 0 <= i < j < |completed| ensures !Later(completed[j], completed[i]) {
      assert !ReleasedLater(completed[j], completed[i]);
    }
  }

  // ---------- state ----------

  /** The runs shown are the latest created, at most thirty, in that order; the current release is one nothing is later than. */
  lemma ShowsTheLatest(h: seq<State>, k: nat, listing: seq<RequestId>)
    requires History(h) && k < |h| && Lists(listing, h[k].jobs.Keys)
    ensures var s, view := h[k], StateView(h[k].jobs, h[k].builds, listing);
            && |view.runs| == (if |listing| < 30 then |listing| else 30)
            && (forall i :: 0 <= i < |view.runs| ==> view.runs[i].id in s.jobs && s.jobs[view.runs[i].id] == view.runs[i])
            && (forall i, j :: 0 <= i < j < |view.runs| ==> view.runs[i].created >= view.runs[j].created)
            && (forall id, i :: id in s.jobs && s.jobs[id] !in view.runs && 0 <= i < |view.runs|
                  ==> view.runs[i].created >= s.jobs[id].created)
            && (view.current == None <==> forall r :: !Released(s.jobs, r))
            && (view.current.Some? ==> NothingLater(s.jobs, view.current.value))
  {
    hide History, Inv, Completed, Runs, Restorable, OfferedAt, First;
    var s := h[k];
    EveryStateIsSound(h, k);
    CurrentIsLatest(s, listing);
    RunsByCreation(s, listing);
    FirstThirty(Runs(s.jobs, listing));
    forall id, i | id in s.jobs && s.jobs[id] !in First(Runs(s.jobs, listing), 30) && 0 <= i < |First(Runs(s.jobs, listing), 30)|
      ensures Runs(s.jobs, listing)[i].created >= s.jobs[id].created
    {
      var j :| 0 <= j < |Runs(s.jobs, listing)| && Runs(s.jobs, listing)[j] == s.jobs[id];
    }
  }

  lemma FirstThirty(runs: seq<Run>)
    ensures |First(runs, 30)| == (if |runs| < 30 then |runs| else 30) && First(runs, 30) <= runs
    ensures forall j :: 0 <= j < |runs| && runs[j] !in First(runs, 30) ==> j >= |First(runs, 30)|
  {
    forall j | 0 <= j < |First(runs, 30)| ensures runs[j] in First(runs, 30) {
      assert First(runs, 30)[j] == runs[j];
    }
  }

  lemma CurrentIsLatest(s: State, listing: seq<RequestId>)
    requires Inv(s) && Lists(listing, s.jobs.Keys)
    ensures var current := StateView(s.jobs, s.builds, listing).current;
            && (current == None <==> forall r :: !Released(s.jobs, r))
            && (current.Some? ==> NothingLater(s.jobs, current.value))
  {
    hide Inv, Completed, Runs, Restorable, OfferedAt, First;
    FirstIsLatest(s, listing);
    var completed := Completed(Runs(s.jobs, listing));
    forall r | Released(s.jobs, r) && completed != [] ensures !Later(s.jobs[r], completed[0]) {
      var i :| 0 <= i < |completed| && completed[i].id == r;
    }
  }

  lemma RunsByCreation(s: State, listing: seq<RequestId>)
    requires Inv(s) && Lists(listing, s.jobs.Keys)
    ensures var runs := Runs(s.jobs, listing);
            && |runs| == |listing|
            && (forall i :: 0 <= i < |runs| ==> runs[i].id in s.jobs && s.jobs[runs[i].id] == runs[i])
            && (forall id :: id in s.jobs ==> s.jobs[id] in runs)
            && forall i, j :: 0 <= i < j < |runs| ==> runs[i].created >= runs[j].created
  {
    assert forall id :: id in s.jobs ==> JobOk(s, id);
    RunsHold(s.jobs, listing);
    var listed := seq(|listing|, i requires 0 <= i < |listing| => s.jobs[listing[i]]);
    var runs := Runs(s.jobs, listing);
    SameElements(runs, listed);
    SortOrders(listed, CreatedLater);
    forall i | 0 <= i < |runs| ensures runs[i].id in s.jobs && s.jobs[runs[i].id] == runs[i] {
      assert runs[i] in runs;
    }
    forall i, j | 0 <= i < j < |runs| ensures runs[i].created >= runs[j].created {
      assert !CreatedLater(runs[j], runs[i]);
    }
  }

  // ---------- request and restore ----------

  ghost predicate Busy(s: State) {
    exists id :: id in s.jobs && s.jobs[id].status in {Publishing, Building, Activating, RecoveryRequired}
  }

  lemma IdleMeansNotBusy(s: State)
    ensures Idle(s.jobs) <==> !Busy(s)
  {
  }

  /** A new deployment is refused while the target is busy, and otherwise names the latest release as the one before it. */
  lemma DeploymentFollowsTheLatest(h: seq<State>, k: nat, listing: seq<RequestId>, actor: Actor, body: DeployRequest, world: World)
    requires History(h) && k < |h| && Lists(listing, h[k].jobs.Keys) && body.id !in h[k].jobs
    ensures var s := h[k];
            var answer := RequestAnswer(s.jobs, listing, actor, body, world, s.clock);
            && (answer == Err(TargetBusy) <==> Busy(s))
            && (answer.Ok? ==>
                  && answer.value.id == body.id && answer.value.release == None && answer.value.digest == None
                  && answer.value.status == (if world.publisher then Publishing else Building)
                  && answer.value.expires == s.clock + 2400000
                  && (answer.value.previous == None <==> forall r :: !Released(s.jobs, r))
                  && (answer.value.previous.Some? ==> NothingLater(s.jobs, answer.value.previous.value)))
  {
    hide History, Inv, Completed, Runs, StateView;
    EveryStateIsSound(h, k);
    IdleMeansNotBusy(h[k]);
    LatestOf(h[k], listing);
  }

  lemma LatestOf(s: State, listing: seq<RequestId>)
    requires Inv(s) && Lists(listing, s.jobs.Keys)
    ensures var completed := Completed(Runs(s.jobs, listing));
            && (completed == [] <==> forall r :: !Released(s.jobs, r))
            && (completed != [] ==>
                  && completed[0].id in s.jobs && s.jobs[completed[0].id] == completed[0]
                  && NothingLater(s.jobs, completed[0].id))
  {
    hide Inv, Completed, Runs;
    FirstIsLatest(s, listing);
    var completed := Completed(Runs(s.jobs, listing));
    forall r | Released(s.jobs, r) && completed != [] ensures !Later(s.jobs[r], completed[0]) {
      var i :| 0 <= i < |completed| && completed[i].id == r;
    }
  }

  /** A release one could go back to: its files are there, and it is not what is installed now. */
  ghost predicate Alternative(s: State, r: RequestId, current: RequestId)
    requires current in s.jobs
  {
    Released(s.jobs, r) && s.jobs[r].digest != s.jobs[current].digest && OnDisk(s, r)
  }

  /** The requested release is the latest alternative, or shares its instants with it. */
  ghost predicate LatestAlternative(s: State, r: RequestId, current: RequestId)
    requires current in s.jobs
  {
    && Alternative(s, r, current)
    && forall q :: Alternative(s, q, current) ==> !Later(s.jobs[q], s.jobs[r])
  }

  /** No release but this one is the latest. */
  ghost predicate OnlyLatest(jobs: map<RequestId, Run>, id: RequestId) {
    Released(jobs, id) && forall r :: Released(jobs, r) && r != id ==> Later(jobs[id], jobs[r])
  }

  ghost predicate OnlyLatestAlternative(s: State, r: RequestId, current: RequestId)
    requires current in s.jobs
  {
    && Alternative(s, r, current)
    && forall q :: Alternative(s, q, current) && q != r ==> Later(s.jobs[r], s.jobs[q])
  }

  lemma TargetIsLatestAlternative(s: State, listing: seq<RequestId>)
    requires Inv(s) && Lists(listing, s.jobs.Keys) && Completed(Runs(s.jobs, listing)) != []
    ensures var completed := Completed(Runs(s.jobs, listing));
            var current, target := completed[0].id, RollbackTarget(completed, s.jobs, s.builds);
            && current in s.jobs
            && (target.Some? ==> LatestAlternative(s, target.value, current))
            && (target.None? ==> forall r :: !Alternative(s, r, current))
            && forall r :: Alternative(s, r, current) && target != Some(r) ==>
                 target.Some? && !Later(s.jobs[r], s.jobs[target.value])
  {
    hide Inv, Completed, Runs;
    FirstIsLatest(s, listing);
    var completed := Completed(Runs(s.jobs, listing));
    var k := RollbackAt(completed, |completed|, s.jobs, s.builds);
    forall i | 0 <= i < |completed|
      ensures RollbackCandidate(completed, i, s.jobs, s.builds) <==> Alternative(s, completed[i].id, completed[0].id)
    {
      SavedMeansOnDisk(s, completed[i].id);
    }
    forall r | Alternative(s, r, completed[0].id) ensures k < |completed| && !Later(s.jobs[r], completed[k]) {
      var i :| 0 <= i < |completed| && completed[i].id == r;
      assert RollbackCandidate(completed, i, s.jobs, s.builds);
      assert i == k || !Later(completed[i], completed[k]);
    }
  }

  /**
   A restore is refused while the target is busy, when it does not start from the latest release, when what it asks for
   is not another release, or when files are missing or changed; a rollback only goes to the latest alternative.
   */
  lemma RestoreAnsweredForCause(h: seq<State>, k: nat, listing: seq<RequestId>, actor: Actor, body: RestoreRequest, archived: bool)
    requires History(h) && k < |h| && Lists(listing, h[k].jobs.Keys) && body.id !in h[k].jobs && body.operation != Deploy
    ensures var s := h[k];
            var answer := RestoreAnswer(s.jobs, s.builds, listing, actor, body, archived, s.clock);
            && (answer == Err(TargetBusy) <==> Busy(s))
            && (answer.Ok? || answer.error !in {TargetBusy, CurrentChanged} ==>
                  && NothingLater(s.jobs, body.expected)
                  && (answer == Err(NotSelectable) <==>
                        !(Released(s.jobs, body.restore) && s.jobs[body.restore].digest != s.jobs[body.expected].digest))
                  && (answer == Err(ReleaseUnavailable) ==> !(Untouched(s, body.restore) && Untouched(s, body.expected)))
                  && (answer == Err(ProjectArchived) ==> archived)
                  && (answer == Err(RollbackChanged) ==>
                        body.operation == Rollback && !OnlyLatestAlternative(s, body.restore, body.expected)))
            && (answer == Err(CurrentChanged) ==> !Busy(s) && !OnlyLatest(s.jobs, body.expected))
  {
    hide History, Inv, Completed, Runs, RollbackTarget, SavedRelease, OnDisk, Untouched;
    var s := h[k];
    EveryStateIsSound(h, k);
    IdleMeansNotBusy(s);
    LatestOf(s, listing);
    if Released(s.jobs, body.restore) {
      SavedMeansOnDisk(s, body.restore);
    }
    if Released(s.jobs, body.expected) {
      SavedMeansOnDisk(s, body.expected);
    }
    if Completed(Runs(s.jobs, listing)) != [] {
      TargetIsLatestAlternative(s, listing);
    }
  }

  /** An accepted restore activates exactly the artifact of the release asked for, from untouched files, over the latest release. */
  lemma RestoreActivatesWhatWasAsked(h: seq<State>, k: nat, listing: seq<RequestId>, actor: Actor, body: RestoreRequest, archived: bool)
    requires History(h) && k < |h| && Lists(listing, h[k].jobs.Keys) && body.id !in h[k].jobs && body.operation != Deploy
    requires RestoreAnswer(h[k].jobs, h[k].builds, listing, actor, body, archived, h[k].clock).Ok?
    ensures var s := h[k];
            var run := RestoreAnswer(s.jobs, s.builds, listing, actor, body, archived, s.clock).value;
            && !Busy(s) && NothingLater(s.jobs, body.expected) && Released(s.jobs, body.restore) && !archived
            && s.jobs[body.restore].digest != s.jobs[body.expected].digest
            && Untouched(s, body.restore) && Untouched(s, body.expected)
            && run.digest == s.jobs[body.restore].digest && run.head == s.jobs[body.restore].head
            && run.release == Some(match s.jobs[body.restore].release case Some(origin) => origin case None => body.restore)
            && run.previous == Some(body.expected) && run.status == Activating && run.expires == s.clock + 2400000
            && (body.operation == Rollback ==> LatestAlternative(s, body.restore, body.expected))
  {
    hide History, Inv, Completed, Runs, RollbackTarget, SavedRelease, OnDisk, Untouched, LatestAlternative;
    var s := h[k];
    EveryStateIsSound(h, k);
    IdleMeansNotBusy(s);
    LatestOf(s, listing);
    SavedMeansOnDisk(s, body.restore);
    SavedMeansOnDisk(s, body.expected);
    SavedGives(s, body.restore);
    TargetIsLatestAlternative(s, listing);
  }

  lemma SavedGives(s: State, id: RequestId)
    requires Inv(s) && Released(s.jobs, id)
    ensures var origin := SavedRelease(s.jobs[id], s.jobs, s.builds, true);
            origin.Some? ==>
              && origin.value in s.jobs && s.jobs[origin.value].head == s.jobs[id].head
              && origin.value in s.builds && s.jobs[id].digest == Some(s.builds[origin.value].manifest)
  {
  }

  /** A repeated restore is recognised by its requester, details, kind, starting release and the release it goes back to. */
  lemma RestoreIsRepeated(s: State, listing: seq<RequestId>, actor: Actor, body: RestoreRequest, archived: bool)
    requires Inv(s) && Lists(listing, s.jobs.Keys) && body.id in s.jobs && body.operation != Deploy
    ensures var run := s.jobs[body.id];
            RestoreAnswer(s.jobs, s.builds, listing, actor, body, archived, s.clock) ==
            (if run.actor == actor && run.change == body.change && run.operation == body.operation
                && run.previous == Some(body.expected) && body.restore in s.jobs
                && run.release == Some(match s.jobs[body.restore].release case Some(origin) => origin case None => body.restore)
             then Ok(run) else Err(RequestConflict))
  {
    assert JobOk(s, body.id);
  }
}
