/** The store's calls and its background builds as they run, one durable write at a time. */
module ServixStore {
  import opened Basics
  import opened Sorting
  import opened Servix
  import opened ServixCalls

  /** A call answers, refuses, or is cut short by the death of the process. */
  datatype Reply<+T> = Done(value: T) | Denied(why: Problem) | Died

  lemma Extends1(h: seq<State>, w: Write)
    requires History(h) && Enabled(h[|h| - 1], w)
    ensures History(h + [Effect(h[|h| - 1], w)])
  {
    hide Effect, Enabled;
    var longer := h + [Effect(h[|h| - 1], w)];
    forall i | 0 <= i < |longer| - 1 ensures Next(longer[i], longer[i + 1]) {
      if i < |h| - 1 {
        assert Next(h[i], h[i + 1]);
      }
    }
  }

  lemma NothingSettled(s: State)
    ensures SettledBut(s, s.jobs.Keys) == s.jobs
  {
  }

  lemma OneMoreSettled(s: State, todo: set<RequestId>, id: RequestId)
    requires id in todo && todo <= s.jobs.Keys
    ensures SettledBut(s, todo).Keys == s.jobs.Keys && SettledBut(s, todo)[id] == s.jobs[id]
    ensures SettledBut(s, todo - {id}) == SettledBut(s, todo)[id := SettledRun(s.jobs[id], s.results, id in s.tasks, s.clock)]
  {
  }

  ghost function Seen(listing: seq<RequestId>, n: nat): set<RequestId>
    requires n <= |listing|
  {
    set i | 0 <= i < n :: listing[i]
  }

  lemma StillToSee(ids: set<RequestId>, listing: seq<RequestId>, i: nat)
    requires Lists(listing, ids) && i < |listing|
    ensures listing[i] in ids - Seen(listing, i)
    ensures ids - Seen(listing, i + 1) == ids - Seen(listing, i) - {listing[i]}
  {
  }

  lemma AllSeen(ids: set<RequestId>, listing: seq<RequestId>)
    requires Lists(listing, ids)
    ensures Seen(listing, 0) == {} && ids - Seen(listing, |listing|) == {}
  {
  }

  lemma NamedById(s: State, id: RequestId)
    requires Inv(s) && id in s.jobs
    ensures s.jobs[id].id == id
  {
    assert JobOk(s, id);
  }

  lemma AcceptEnabled(s: State, id: RequestId)
    requires id in s.jobs && Open(s.jobs[id]) && id in s.results && Matches(s.jobs[id], s.results[id])
    ensures Enabled(s, Accept(id))
    ensures Effect(s, Accept(id)) == s.(jobs := s.jobs[id := Settled(s.jobs[id], s.results[id], s.clock)])
  {
  }

  lemma InterruptEnabled(s: State, id: RequestId)
    requires id in s.jobs && Open(s.jobs[id]) && Interrupted(s.jobs[id], id in s.tasks, s.clock)
    ensures Enabled(s, Interrupt(id))
    ensures Effect(s, Interrupt(id)) == s.(jobs := s.jobs[id := Stopped(s.jobs[id], s.clock)])
  {
  }

  lemma HandOverEnabled(s: State, id: RequestId)
    requires id in s.jobs && s.jobs[id].status == Activating
    ensures Enabled(s, HandOver(id)) && Effect(s, HandOver(id)) == s.(requests := s.requests + {id})
    ensures Enabled(s, Unconfirmed(id))
    ensures Effect(s, Unconfirmed(id))
         == s.(jobs := s.jobs[id := s.jobs[id].(status := RecoveryRequired, error := Some(UNCONFIRMED))])
  {
  }

  lemma SettledIs(s: State, id: RequestId)
    requires id in s.jobs && s.jobs[id].id == id
    ensures var run := s.jobs[id];
            SettledRun(run, s.results, id in s.tasks, s.clock) ==
            (if !Open(run) then run
             else if id in s.results then Settled(run, s.results[id], s.clock)
             else if Interrupted(run, id in s.tasks, s.clock) then Stopped(run, s.clock) else run)
  {
  }

  lemma ReadableIff(s: State, listing: seq<RequestId>)
    requires Lists(listing, s.jobs.Keys)
    ensures Readable(s.jobs, s.results)
       <==> forall k :: 0 <= k < |listing| && listing[k] in s.results && Open(s.jobs[listing[k]])
              ==> Matches(s.jobs[listing[k]], s.results[listing[k]])
  {
    forall id | id in s.jobs ensures exists k :: 0 <= k < |listing| && listing[k] == id {
      assert id in listing;
    }
  }

  class ServixDeploymentStore {
    var jobs: map<RequestId, Run>
    var results: map<RequestId, Receipt>
    var builds: map<RequestId, Build>
    var requests: set<RequestId>
    // In memory only: the builds this process is running, and whether it was closed.
    var running: map<RequestId, Run>
    var stopped: bool
    // Durable writes that still succeed; the process dies at the next one.
    var fuel: nat
    var clock: Time
    ghost var history: seq<State>

    ghost function Now(): State
      reads this
    {
      State(jobs, results, builds, requests, running, clock)
    }

    ghost predicate Valid()
      reads this
    {
      History(history) && history[|history| - 1] == Now()
    }

    constructor Open(fuel: nat)
      ensures Valid() && Now() == EMPTY && history == [EMPTY] && !stopped
      ensures this.fuel == fuel
    {
      jobs, results, builds, requests, running := map[], map[], map[], {}, map[];
      stopped, this.fuel := false, fuel;
      clock, history := 0, [EMPTY];
    }

    /** A new controller finds the records of the old one; the builds that ran there are gone. */
    constructor Restart(before: ServixDeploymentStore, fuel: nat)
      requires before.Valid()
      ensures Valid() && Now() == before.Now().(tasks := map[]) && before.history <= history && !stopped
      ensures this.fuel == fuel
    {
      jobs, results, builds, requests := before.jobs, before.results, before.builds, before.requests;
      running, stopped, this.fuel, clock := map[], false, fuel, before.clock;
      history := before.history + [before.Now().(tasks := map[])];
      new;
      Extends1(before.history, Write.Restart);
    }

    lemma Sound()
      requires Valid()
      ensures Inv(Now())
    {
      EveryStateIsSound(history, |history| - 1);
    }

    // ---------- The outside world ----------

    method Observe(now: Time)
      requires Valid() && clock <= now
      modifies this`clock, this`history
      ensures Valid() && Now() == old(Now()).(clock := now) && old(history) <= history
    {
      Extends1(history, Tick(now));
      clock := now;
      history := history + [Now()];
    }

    /** The target reports on an activation. */
    method Report(id: RequestId, receipt: Receipt)
      requires Valid()
      modifies this`results, this`history
      ensures Valid() && Now() == old(Now()).(results := old(results)[id := receipt]) && old(history) <= history
    {
      Extends1(history, PutReceipt(id, receipt));
      results := results[id := receipt];
      history := history + [Now()];
    }

    /** A build leaves its release on disk, or something changes one. */
    method Keep(id: RequestId, build: Build)
      requires Valid()
      modifies this`builds, this`history
      ensures Valid() && Now() == old(Now()).(builds := old(builds)[id := build]) && old(history) <= history
    {
      Extends1(history, PutBuild(id, build));
      builds := builds[id := build];
      history := history + [Now()];
    }

    method Close()
      modifies this`stopped
      ensures stopped
    {
      stopped := true;
    }

    // ---------- Saving ----------

    /** `after` is what the process still remembers of its builds once the record is saved. */
    method Save(run: Run, after: map<RequestId, Run>, ghost w: Write) returns (ok: bool)
      requires Valid() && Enabled(Now(), w)
      requires Effect(Now(), w) == Now().(jobs := jobs[run.id := run], tasks := after)
      modifies this`jobs, this`running, this`fuel, this`history
      ensures !ok ==> fuel == 0
      ensures Valid() && old(history) <= history
      ensures ok ==> Now() == Effect(old(Now()), w) && history == old(history) + [Now()]
      ensures !ok ==> Now() == old(Now()) && history == old(history)
    {
      if fuel == 0 { return false; }
      fuel := fuel - 1;
      Extends1(history, w);
      jobs := jobs[run.id := run];
      running := after;
      history := history + [Now()];
      return true;
    }

    // ---------- records ----------

    /** Reading the records settles every open run that can be settled, one write each. */
    method Records(listing: seq<RequestId>) returns (reply: Reply<seq<Run>>)
      requires Valid() && Lists(listing, jobs.Keys)
      modifies this`jobs, this`running, this`fuel, this`history
      ensures reply.Died? ==> fuel == 0
      ensures Valid() && old(history) <= history && jobs.Keys == old(jobs).Keys
      ensures match reply
              case Died => true
              case Denied(why) => why == StorageUnavailable && !Readable(old(jobs), results)
              case Done(runs) =>
                && Readable(old(jobs), results)
                && Now() == AfterReading(old(Now())) && runs == Runs(jobs, listing)
    {
      hide History, SettledBut, SettledRun, Readable, Inv, Enabled, Effect;
      ghost var s := Now();
      NothingSettled(s);
      AllSeen(jobs.Keys, listing);
      assert jobs.Keys - Seen(listing, 0) == jobs.Keys;
      ReadableIff(s, listing);
      for i := 0 to |listing|
        invariant Valid() && old(history) <= history && jobs.Keys == s.jobs.Keys
        invariant Now() == s.(jobs := SettledBut(s, s.jobs.Keys - Seen(listing, i)))
        invariant forall k :: 0 <= k < i && listing[k] in results && Servix.Open(s.jobs[listing[k]])
                    ==> Matches(s.jobs[listing[k]], results[listing[k]])
      {
        var id := listing[i];
        StillToSee(s.jobs.Keys, listing, i);
        OneMoreSettled(s, s.jobs.Keys - Seen(listing, i), id);
        Sound();
        NamedById(Now(), id);
        SettledIs(s, id);
        var run := jobs[id];
        if Servix.Open(run) {
          if id in results {
            if !Matches(run, results[id]) {
              ReadableIff(s, listing);
              return Denied(StorageUnavailable);
            }
            AcceptEnabled(Now(), id);
            var ok := Save(Settled(run, results[id], clock), running, Accept(id));
            if !ok { return Died; }
          } else if Interrupted(run, id in running, clock) {
            InterruptEnabled(Now(), id);
            var ok := Save(Stopped(run, clock), running, Interrupt(id));
            if !ok { return Died; }
          }
        }
      }
      return Done(Runs(jobs, listing));
    }

    // ---------- state ----------

    method ReadState(listing: seq<RequestId>) returns (reply: Reply<View>)
      requires Valid() && Lists(listing, jobs.Keys)
      modifies this`jobs, this`running, this`fuel, this`history
      ensures reply.Died? ==> fuel == 0
      ensures Valid() && old(history) <= history
      ensures reply.Denied? ==> reply.why == StorageUnavailable && !Readable(old(jobs), results)
      ensures reply.Done? ==>
                && Readable(old(jobs), results) && jobs.Keys == old(jobs).Keys
                && Now() == AfterReading(old(Now())) && reply.value == StateView(jobs, builds, listing)
    {
      hide Inv, History, Readable, SettledBut, SavedRelease, Sort, Successes;
      var records := Records(listing);
      if records.Died? { return Died; }
      if records.Denied? { return Denied(records.why); }
      var runs := records.value;
      var completed := Completed(runs);
      var shown := First(completed, SHOWN);
      var restorable: seq<RequestId> := [];
      for i := 0 to |shown|
        invariant restorable == Restorable(shown[..i], jobs, builds)
      {
        assert shown[..i + 1][..i] == shown[..i];
        if SavedRelease(shown[i], jobs, builds, false).Some? {
          restorable := restorable + [shown[i].id];
        }
      }
      assert shown[..|shown|] == shown;
      var k := 0;
      while k < |completed| && !(Differs(completed[k], completed[0]) && completed[k].id in restorable)
        invariant k <= |completed| && OfferedAt(completed, k, restorable) == k
      {
        k := k + 1;
      }
      OfferedStops(completed, k, restorable);
      return Done(View(First(runs, SHOWN), if completed == [] then None else Some(completed[0].id),
                       if k < |completed| then Some(completed[k].id) else None, restorable));
    }

    // ---------- request ----------

    /** A deployment is recorded before its build starts in the background. */
    method Request(listing: seq<RequestId>, actor: Actor, body: DeployRequest, world: World) returns (reply: Reply<Run>)
      requires Valid() && Lists(listing, jobs.Keys)
      modifies this`jobs, this`running, this`fuel, this`history
      ensures reply.Died? ==> fuel == 0
      ensures Valid() && old(history) <= history
      ensures reply.Done? || (reply.Denied? && reply.why != AccessDenied && reply.why != StorageUnavailable) ==>
                var s := AfterReading(old(Now()));
                var answer := RequestAnswer(s.jobs, listing, actor, body, world, s.clock);
                match reply
                case Done(run) =>
                  && answer == Ok(run)
                  && Now() == if body.id in s.jobs then s
                              else s.(jobs := s.jobs[run.id := run], tasks := s.tasks[run.id := run])
                case Denied(why) => answer == Err(why) && Now() == s
                case Died => true
      ensures reply == Denied(AccessDenied) <==> stopped || !world.allowed
      ensures reply == Denied(AccessDenied) ==> Now() == old(Now())
      ensures reply == Denied(StorageUnavailable) ==> !Readable(old(jobs), results)
      ensures reply.Done? ==> Readable(old(jobs), results)
    {
      hide Inv, History, Readable, SettledBut, Completed, Runs;
      if stopped || !world.allowed { return Denied(AccessDenied); }
      var records := Records(listing);
      if records.Died? { return Died; }
      if records.Denied? { return Denied(records.why); }
      if body.id in jobs {
        var previous := jobs[body.id];
        if previous.actor != actor || previous.connector != body.connector || previous.change != body.change {
          return Denied(RequestConflict);
        }
        return Done(previous);
      }
      if exists id :: id in jobs && Active(jobs[id]) { return Denied(TargetBusy); }
      if world.publisher && (body.connector.None? || !world.online) { return Denied(ConnectorOffline); }
      if world.archived { return Denied(ProjectArchived); }
      var completed := Completed(records.value);
      var run := Run(body.id, actor, body.change, Deploy, body.connector, None,
                     if completed == [] then None else Some(completed[0].id),
                     if world.publisher then Publishing else Building, if world.publisher then None else Some(world.head),
                     None, clock, clock, clock + LIFETIME, None);
      var ok := Save(run, running[run.id := run], AddDeploy(run));
      if !ok { return Died; }
      return Done(run);
    }

    // ---------- restore ----------

    /** The durable record says activating before the target is asked to activate. */
    method EnqueueActivation(run: Run, digest: Digest, allowed: bool, handed: bool, ghost w: Write) returns (reply: Reply<Run>)
      requires Valid()
      requires !stopped && allowed && clock <= run.expires ==>
                 && Enabled(Now(), w)
                 && Effect(Now(), w)
                      == Now().(jobs := jobs[run.id := Activated(run, digest, clock)], tasks := running - {run.id})
      modifies this`jobs, this`running, this`requests, this`fuel, this`history
      ensures reply.Died? ==> fuel == 0
      ensures Valid() && old(history) <= history
      ensures reply.Denied? <==> stopped || run.expires < clock || !allowed
      ensures reply.Denied? ==> reply.why == AccessDenied && Now() == old(Now())
      ensures reply.Done? ==>
                && Now() == old(Now()).(jobs := old(jobs)[run.id := reply.value], tasks := old(running) - {run.id}, requests := requests)
                && (if handed then
                      reply.value == Activated(run, digest, clock) && requests == old(requests) + {run.id}
                    else
                      && reply.value == Activated(run, digest, clock).(status := RecoveryRequired, error := Some(UNCONFIRMED))
                      && requests == old(requests))
    {
      hide Inv, History, Enabled, Effect;
      if stopped || run.expires < clock || !allowed { return Denied(AccessDenied); }
      var activating := Activated(run, digest, clock);
      var ok := Save(activating, running - {run.id}, w);
      if !ok { return Died; }
      if !handed {
        var uncertain := activating.(status := RecoveryRequired, error := Some(UNCONFIRMED));
        HandOverEnabled(Now(), run.id);
        ok := Save(uncertain, running, Unconfirmed(run.id));
        if !ok { return Died; }
        return Done(uncertain);
      }
      if fuel == 0 { return Died; }
      fuel := fuel - 1;
      HandOverEnabled(Now(), run.id);
      Extends1(history, HandOver(run.id));
      requests := requests + {run.id};
      history := history + [Now()];
      return Done(activating);
    }

    /** The checks of a rollback or restore, on the records just read. */
    method DecideRestore(listing: seq<RequestId>, runs: seq<Run>, actor: Actor, body: RestoreRequest, archived: bool)
      returns (answer: Result<Run, Problem>)
      requires (forall id :: id in listing ==> id in jobs) && runs == Runs(jobs, listing)
      ensures answer == RestoreAnswer(jobs, builds, listing, actor, body, archived, clock)
      ensures answer.Err? ==> answer.error != AccessDenied && answer.error != StorageUnavailable
    {
      hide Completed, Runs, SavedRelease;
      if body.id in jobs {
        if !SameRestore(jobs[body.id], jobs, actor, body) { return Err(RequestConflict); }
        return Ok(jobs[body.id]);
      }
      if exists id :: id in jobs && Active(jobs[id]) { return Err(TargetBusy); }
      var completed := Completed(runs);
      if completed == [] || completed[0].id != body.expected { return Err(CurrentChanged); }
      if body.restore !in jobs || jobs[body.restore].status != Succeeded || !Differs(jobs[body.restore], completed[0]) {
        return Err(NotSelectable);
      }
      if body.operation == Rollback {
        var k := 0;
        while k < |completed| && !RollbackCandidate(completed, k, jobs, builds)
          invariant k <= |completed| && RollbackAt(completed, k, jobs, builds) == k
        {
          k := k + 1;
        }
        RollbackStops(completed, k, jobs, builds);
        if k == |completed| || completed[k].id != body.restore { return Err(RollbackChanged); }
      }
      var origin := SavedRelease(jobs[body.restore], jobs, builds, true);
      if origin.None? || SavedRelease(completed[0], jobs, builds, true).None? { return Err(ReleaseUnavailable); }
      if archived { return Err(ProjectArchived); }
      return Ok(Run(body.id, actor, body.change, body.operation, None, origin, Some(completed[0].id), Activating,
                    jobs[origin.value].head, Some(builds[origin.value].manifest), clock, clock, clock + LIFETIME, None));
    }

    /** Roll back or restore: activate an earlier release again. */
    method RestoreRelease(listing: seq<RequestId>, actor: Actor, body: RestoreRequest, allowed: bool, archived: bool, handed: bool)
      returns (reply: Reply<Run>)
      requires Valid() && Lists(listing, jobs.Keys) && body.operation != Deploy
      modifies this`jobs, this`running, this`requests, this`fuel, this`history
      ensures reply.Died? ==> fuel == 0
      ensures Valid() && old(history) <= history
      ensures reply.Done? || (reply.Denied? && reply.why != AccessDenied && reply.why != StorageUnavailable) ==>
                var s := AfterReading(old(Now()));
                var answer := RestoreAnswer(s.jobs, s.builds, listing, actor, body, archived, s.clock);
                match reply
                case Done(run) =>
                  && answer.Ok?
                  && (if body.id in s.jobs then run == answer.value && Now() == s
                      else
                        && run == (if handed then answer.value
                                   else answer.value.(status := RecoveryRequired, error := Some(UNCONFIRMED)))
                        && jobs == s.jobs[body.id := run]
                        && requests == (if handed then s.requests + {body.id} else s.requests))
                case Denied(why) => answer == Err(why) && Now() == s
                case Died => true
      ensures reply == Denied(AccessDenied) <==> stopped || !allowed
      ensures reply == Denied(AccessDenied) ==> Now() == old(Now())
      ensures reply == Denied(StorageUnavailable) ==> !Readable(old(jobs), results)
      ensures reply.Done? ==> Readable(old(jobs), results)
    {
      hide Inv, History, Readable, SettledBut, SettledRun, Runs, RestoreAnswer, SameRestore, Enabled, OriginOf, Idle;
      if stopped || !allowed { return Denied(AccessDenied); }
      var records := Records(listing);
      if records.Died? { return Died; }
      if records.Denied? { return Denied(records.why); }
      var answer := DecideRestore(listing, records.value, actor, body, archived);
      if answer.Err? { return Denied(answer.error); }
      RestoreAnswerIs(jobs, builds, listing, actor, body, archived, clock);
      if body.id in jobs { return Done(answer.value); }
      Sound();
      AcceptedRestoreMayBeAdded(Now(), listing, actor, body, archived);
      NoTaskWithoutRecord(Now(), body.id);
      reply := EnqueueActivation(answer.value, answer.value.digest.value, allowed, handed, AddRestore(answer.value));
    }

    // ---------- The background build ----------

    /** What the catch of a background build saves, unless the controller was closed meanwhile. */
    method FailBuild(id: RequestId, error: Code) returns (ok: bool)
      requires Valid() && id in running
      modifies this`jobs, this`running, this`fuel, this`history
      ensures !ok ==> fuel == 0
      ensures Valid() && old(history) <= history
      ensures stopped ==> ok && Now() == old(Now())
      ensures !stopped && ok ==>
                Now() == old(Now()).(
                  jobs := old(jobs)[id := old(running)[id].(status := Failed, error := Some(error), updated := clock)],
                  tasks := old(running) - {id})
      ensures !ok ==> Now() == old(Now())
    {
      hide History;
      if stopped { return true; }
      Sound();
      assert TaskOk(Now(), id);
      var run := running[id];
      ok := Save(run.(status := Failed, error := Some(error), updated := clock), running - {id}, FailTask(id, error));
    }

    /** The source has been published, or not: the record is saved as it was remembered, with no look at its expiry. */
    method PublicationEnds(id: RequestId, outcome: Result<Head, Code>, allowed: bool, denied: Code) returns (ok: bool)
      requires Valid() && id in running && running[id].status == Publishing
      modifies this`jobs, this`running, this`fuel, this`history
      ensures !ok ==> fuel == 0
      ensures Valid() && old(history) <= history
      ensures stopped ==> ok && Now() == old(Now())
      ensures !ok ==> Now() == old(Now())
      ensures !stopped && ok && outcome.Ok? && allowed ==>
                var run := Published(old(running)[id], outcome.value, clock);
                Now() == old(Now()).(jobs := old(jobs)[id := run], tasks := old(running)[id := run])
      ensures !stopped && ok && (outcome.Err? || !allowed) ==>
                var error := if outcome.Err? then outcome.error else denied;
                Now() == old(Now()).(
                  jobs := old(jobs)[id := old(running)[id].(status := Failed, error := Some(error), updated := clock)],
                  tasks := old(running) - {id})
    {
      hide History;
      if outcome.Err? {
        ok := FailBuild(id, outcome.error);
        return;
      }
      if stopped || !allowed {
        ok := FailBuild(id, denied);
        return;
      }
      Sound();
      assert TaskOk(Now(), id);
      var run := Published(running[id], outcome.value, clock);
      ok := Save(run, running[id := run], Publish(id, outcome.value));
    }

    /** The release has been built, or not. */
    method BuildEnds(id: RequestId, outcome: Result<Digest, Code>, allowed: bool, handed: bool, denied: Code) returns (ok: bool)
      requires Valid() && id in running && running[id].status == Building
      modifies this`jobs, this`running, this`requests, this`fuel, this`history
      ensures !ok ==> fuel == 0
      ensures Valid() && old(history) <= history
      ensures stopped ==> ok && Now() == old(Now())
      ensures var refused := outcome.Err? || !allowed || old(running)[id].expires < clock;
              !stopped && ok ==>
                && running == old(running) - {id}
                && (if refused then
                      && requests == old(requests)
                      && jobs == old(jobs)[id := old(running)[id].(
                           status := Failed, error := Some(if outcome.Err? then outcome.error else denied), updated := clock)]
                    else
                      var activating := Activated(old(running)[id], outcome.value, clock);
                      && requests == (if handed then old(requests) + {id} else old(requests))
                      && jobs == old(jobs)[id := if handed then activating
                                                 else activating.(status := RecoveryRequired, error := Some(UNCONFIRMED))])
    {
      hide History;
      if outcome.Err? {
        ok := FailBuild(id, outcome.error);
        return;
      }
      var run := running[id];
      if stopped || run.expires < clock || !allowed {
        ok := FailBuild(id, denied);
        return;
      }
      Sound();
      assert TaskOk(Now(), id);
      var reply := EnqueueActivation(run, outcome.value, allowed, handed, Activate(id, outcome.value));
      ok := reply.Done?;
    }
  }

  lemma NoTaskWithoutRecord(s: State, id: RequestId)
    requires Inv(s) && id !in s.jobs
    ensures id !in s.tasks && s.tasks - {id} == s.tasks
  {
    assert forall t :: t in s.tasks ==> TaskOk(s, t);
  }

  lemma RestoreAnswerIs(jobs: map<RequestId, Run>, builds: map<RequestId, Build>, listing: seq<RequestId>, actor: Actor,
                        body: RestoreRequest, archived: bool, now: Time)
    requires (forall id :: id in listing ==> id in jobs)
    requires RestoreAnswer(jobs, builds, listing, actor, body, archived, now).Ok?
    ensures var run := RestoreAnswer(jobs, builds, listing, actor, body, archived, now).value;
            body.id !in jobs ==>
              && run.id == body.id && run.digest.Some? && run.expires == now + LIFETIME
              && run == Activated(run, run.digest.value, now)
  {
    hide Completed, Runs, SavedRelease, RollbackTarget;
  }

  lemma RollbackStops(completed: seq<Run>, k: nat, jobs: map<RequestId, Run>, builds: map<RequestId, Build>)
    requires k <= |completed| && RollbackAt(completed, k, jobs, builds) == k
    requires k < |completed| ==> RollbackCandidate(completed, k, jobs, builds)
    ensures RollbackAt(completed, |completed|, jobs, builds) == k
  {
    assert forall i :: 0 <= i < k ==> !RollbackCandidate(completed, i, jobs, builds);
  }

  lemma OfferedStops(completed: seq<Run>, k: nat, restorable: seq<RequestId>)
    requires k <= |completed| && OfferedAt(completed, k, restorable) == k
    requires k < |completed| ==> Offered(completed, k, restorable)
    ensures OfferedAt(completed, |completed|, restorable) == k
  {
    assert forall i :: 0 <= i < k ==> !Offered(completed, i, restorable);
  }
}
