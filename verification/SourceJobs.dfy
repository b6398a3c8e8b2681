/** The source jobs that lead to imports: queued for a device, claimed by it, completed with a bundle or failed. */
module SourceJobs {
  import opened Basics
  import opened GitPublication

  // ---------- A crash between the import and the job's record ----------

  /** The bundle of an unpublished job was received, and no upload of it is going on. */
  ghost predicate Abandoned(s: State, id: JobId) {
    id in s.jobs && id in s.bundles && id !in s.open && s.jobs[id].status == Working
  }

  ghost predicate Stuck(s: State, id: JobId) {
    && id in s.jobs && id in s.bundles && id !in s.open
    && (s.jobs[id].status == Working || s.jobs[id].status == Failed)
  }

  lemma StepKeepsStuck(s: State, step: Step, id: JobId)
    requires Enabled(s, step) && Stuck(s, id)
    ensures Stuck(Effect(s, step), id)
    ensures s.jobs[id].status == Failed ==> Effect(s, step).jobs[id].status == Failed
    ensures s.jobs[id].status == Working && Effect(s, step).jobs[id].status != Working ==> step == FailJob(id)
  {
    hide Ancestor, Closed;
  }

  lemma StepOf(h: seq<State>, i: nat) returns (step: Step)
    requires History(h) && i + 1 < |h|
    ensures Enabled(h[i], step) && h[i + 1] == Effect(h[i], step)
  {
    assert Next(h[i], h[i + 1]);
    step :| Enabled(h[i], step) && h[i + 1] == Effect(h[i], step);
  }

  lemma {:induction false} StuckStays(h: seq<State>, i: nat, k: nat, id: JobId)
    requires History(h) && i <= k < |h| && Stuck(h[i], id)
    ensures Stuck(h[k], id)
    decreases k
  {
    hide History, Enabled, Effect, Stuck;
    if i < k {
      StuckStays(h, i, k - 1, id);
      var step := StepOf(h, k - 1);
      StepKeepsStuck(h[k - 1], step, id);
    }
  }

  /**
   A job whose bundle file exists but whose upload did not end with its record is never published. It is worked
   on for good, past its expiry and whatever the branch holds, unless its device reports that it failed.
   */
  lemma AbandonedIsNeverPublished(h: seq<State>, i: nat, k: nat, id: JobId)
    requires History(h) && i <= k < |h| && Abandoned(h[i], id)
    ensures id in h[k].jobs && (h[k].jobs[id].status == Working || h[k].jobs[id].status == Failed)
    ensures h[k].jobs[id].status == Working ==> Abandoned(h[k], id)
    ensures k + 1 < |h| && Abandoned(h[k], id) && !Abandoned(h[k + 1], id) ==>
              Enabled(h[k], FailJob(id)) && h[k + 1] == Effect(h[k], FailJob(id))
  {
    hide History, Enabled, Effect;
    StuckStays(h, i, k, id);
    if k + 1 < |h| {
      var step := StepOf(h, k);
      StepKeepsStuck(h[k], step, id);
    }
  }

  const ROOT := Commit(0, [])
  const HEAD := Commit(1, [ROOT])
  const JOB := Job(4, 5, None, 0, ROOT, JOB_LIFETIME, Queued, None)

  function Importing(stage: Stage): Import {
    Import(ROOT, HEAD, Bundle({HEAD}, {ROOT}), stage)
  }

  lemma Longer(h: seq<State>, step: Step, after: State) returns (g: seq<State>)
    requires History(h) && Enabled(h[|h| - 1], step) && Effect(h[|h| - 1], step) == after
    ensures History(g) && g != [] && g[|g| - 1] == after
  {
    hide Effect, Enabled;
    Extends1(h, step);
    g := h + [after];
  }

  function Uploading(tip: Commit, fetched: bool, stage: Stage): State {
    State(tip, if fetched then {ROOT, HEAD} else {ROOT}, map[0 := Importing(stage)], map[1 := JOB.(status := Working)], {1}, {1}, 0,
          if tip == HEAD then [ROOT, HEAD] else [ROOT])
  }

  lemma UploadBegins() returns (h: seq<State>)
    ensures History(h) && h != [] && h[|h| - 1] == Uploading(ROOT, false, Begun)
  {
    hide History;
    var s := State(ROOT, {ROOT}, map[], map[], {}, {}, 0, [ROOT]);
    h := [s];
    assert History(h) by { OneState(s); }
    h := Longer(h, QueueJob(1, JOB), s.(jobs := map[1 := JOB]));
    h := Longer(h, ClaimJob(1), s.(jobs := map[1 := JOB.(status := Working)]));
    h := Longer(h, ReceiveBundle(1), s.(jobs := map[1 := JOB.(status := Working)], bundles := {1}, open := {1}));
    h := Longer(h, Begin(0, Importing(Begun)), Uploading(ROOT, false, Begun));
  }

  lemma OneState(s: State)
    requires Seeded(s)
    ensures History([s])
  {
  }

  lemma OneCommand(h: seq<State>, fetched: bool, stage: Stage, tip: Commit, arrived: bool, next: Stage) returns (g: seq<State>)
    requires History(h) && h[|h| - 1] == Uploading(ROOT, fetched, stage)
    requires var t := Uploading(tip, arrived, next);
             Command(h[|h| - 1], Importing(stage)) == (t.(imports := h[|h| - 1].imports), Importing(next))
    ensures History(g) && g != [] && g[|g| - 1] == Uploading(tip, arrived, next)
  {
    hide History, Command;
    assert map[0 := Importing(stage)][0 := Importing(next)] == map[0 := Importing(next)];
    g := Longer(h, Advance(0), Uploading(tip, arrived, next));
  }

  lemma BundleArrives() returns (h: seq<State>)
    ensures History(h) && h != [] && h[|h| - 1] == Uploading(ROOT, true, Fetched)
  {
    hide History, Ancestor;
    h := UploadBegins();
    h := OneCommand(h, false, Begun, ROOT, false, Verified);
    h := OneCommand(h, false, Verified, ROOT, false, Compared);
    assert {ROOT} + {HEAD} == {ROOT, HEAD};
    h := OneCommand(h, false, Compared, ROOT, true, Fetched);
  }

  /** It happens: the process dies after the branch moved, and the job that moved it is abandoned. */
  lemma BranchMovesWithoutItsJob() returns (h: seq<State>)
    ensures h != [] && History(h) && h[|h| - 1].tip == HEAD && Abandoned(h[|h| - 1], 1)
  {
    hide History;
    assert Ancestor(ROOT, HEAD) by { assert Ancestor(ROOT, HEAD.parents[0]); }
    h := BundleArrives();
    h := OneCommand(h, true, Fetched, ROOT, true, Descends);
    assert [ROOT] + [HEAD] == [ROOT, HEAD] && ROOT != HEAD;
    h := OneCommand(h, true, Descends, HEAD, true, Swapped);
    h := Longer(h, Restart, Uploading(HEAD, true, Swapped).(open := {}));
  }

  lemma Extends1(h: seq<State>, step: Step)
    requires History(h) && Enabled(h[|h| - 1], step)
    ensures History(h + [Effect(h[|h| - 1], step)])
  {
    hide Effect, Enabled;
    var longer := h + [Effect(h[|h| - 1], step)];
    forall i | 0 <= i < |longer| - 1 ensures Next(longer[i], longer[i + 1]) {
      if i < |h| - 1 {
        assert Next(h[i], h[i + 1]);
      }
    }
  }

  // ---------- The calls as they run ----------

  /** A call answers, refuses, or is cut short by the death of the process. */
  datatype Reply<+T> = Done(value: T) | Denied | Died

  predicate Mine(job: Job, device: DeviceId, actor: Actor) {
    job.device == device && job.actor == actor
  }

  /** A queued job of this device that may still be handed out. */
  predicate Live(jobs: map<JobId, Job>, id: JobId, device: DeviceId, actor: Actor, active: set<JobId>, now: Time) {
    && id in jobs && jobs[id].device == device && jobs[id].actor == actor && jobs[id].status == Queued
    && now < jobs[id].expires && id in active
  }

  /** What a claim does to a job it passes over. */
  function PassedOver(job: Job, id: JobId, device: DeviceId, actor: Actor, active: set<JobId>, now: Time): Job {
    if job.device == device && job.actor == actor && job.status == Queued && (job.expires <= now || id !in active)
    then job.(status := Failed) else job
  }

  ghost function Swept(jobs: map<JobId, Job>, listing: seq<JobId>, device: DeviceId, actor: Actor, active: set<JobId>, now: Time)
    : map<JobId, Job>
  {
    map id | id in jobs :: if id in listing then PassedOver(jobs[id], id, device, actor, active, now) else jobs[id]
  }

  lemma SweptNothing(jobs: map<JobId, Job>, device: DeviceId, actor: Actor, active: set<JobId>, now: Time)
    ensures Swept(jobs, [], device, actor, active, now) == jobs
  {
  }

  lemma SweptOneMore(jobs: map<JobId, Job>, listing: seq<JobId>, i: nat, device: DeviceId, actor: Actor, active: set<JobId>, now: Time)
    requires Distinct(listing) && i < |listing| && listing[i] in jobs
    ensures var before, id := Swept(jobs, listing[..i], device, actor, active, now), listing[i];
            && before.Keys == jobs.Keys && before[id] == jobs[id]
            && Swept(jobs, listing[..i + 1], device, actor, active, now)
               == before[id := PassedOver(jobs[id], id, device, actor, active, now)]
  {
    assert listing[..i + 1] == listing[..i] + [listing[i]];
    assert listing[i] !in listing[..i];
  }

  class SourcePublication {
    var tip: Commit
    var objects: set<Commit>
    var jobs: map<JobId, Job>
    // Bundle files received so far; each is created once.
    var bundles: set<JobId>
    var clock: Time
    // Durable writes that still succeed; the process dies at the next one.
    var fuel: nat
    ghost var imports: map<ImportId, Import>
    ghost var open: set<JobId>
    ghost var log: seq<Commit>
    ghost var history: seq<State>

    ghost function Now(): State
      reads this
    {
      State(tip, objects, imports, jobs, bundles, open, clock, log)
    }

    ghost predicate Valid()
      reads this
    {
      History(history) && history[|history| - 1] == Now()
    }

    /** Between calls no upload is going on. */
    ghost predicate AtRest()
      reads this
    {
      Valid() && open == {}
    }

    /** An empty repository takes its first commit from a bundle that is complete in itself. */
    constructor Seed(bundle: Bundle, head: Commit, fuel: nat)
      requires bundle.prerequisites == {} && head in bundle.objects && Closed(bundle.objects)
      ensures AtRest() && tip == head && objects == bundle.objects && jobs == map[] && history == [Now()]
      ensures this.fuel == fuel
    {
      tip, objects, jobs, bundles, clock, this.fuel := head, bundle.objects, map[], {}, 0, fuel;
      imports, open, log := map[], {}, [head];
      history := [State(head, bundle.objects, map[], map[], {}, {}, 0, [head])];
    }

    /** A restart finds the repository and the files as they were left; the uploads are gone. */
    constructor Reopen(died: SourcePublication, fuel: nat)
      requires died.Valid()
      ensures AtRest() && Now() == died.Now().(open := {}) && died.history <= history
      ensures this.fuel == fuel
    {
      tip, objects, jobs, bundles, clock, this.fuel := died.tip, died.objects, died.jobs, died.bundles, died.clock, fuel;
      imports, open, log := died.imports, {}, died.log;
      history := died.history + [died.Now().(open := {})];
      new;
      Extends1(died.history, Restart);
    }

    method Observe(now: Time)
      requires AtRest() && clock <= now
      modifies this`clock, this`history
      ensures AtRest() && Now() == old(Now()).(clock := now) && old(history) <= history
    {
      Extends1(history, Tick(now));
      clock := now;
      history := history + [Now()];
    }

    method SaveJob(id: JobId, job: Job, ghost step: Step) returns (ok: bool)
      requires Valid() && Enabled(Now(), step)
      requires var t := Effect(Now(), step); t == Now().(jobs := jobs[id := job], open := t.open)
      modifies this`jobs, this`open, this`fuel, this`history
      ensures !ok ==> fuel == 0
      ensures Valid() && old(history) <= history
      ensures Now() == if ok then Effect(old(Now()), step) else old(Now())
    {
      if fuel == 0 { return false; }
      fuel := fuel - 1;
      Extends1(history, step);
      ghost var t := Effect(Now(), step);
      jobs := jobs[id := job];
      open := t.open;
      history := history + [Now()];
      return true;
    }

    /**
     A request that has a job already is answered by it, if it is the same request of the same device; otherwise
     a ready device gets a job that starts from a head of the branch read before, so the branch may have moved on.
     */
    method Queue(id: JobId, device: DeviceId, actor: Actor, change: Option<nat>, paths: nat, base: Commit, expires: Time, ready: bool)
      returns (reply: Reply<()>)
      requires AtRest() && base in log && expires <= clock + JOB_LIFETIME
      modifies this`jobs, this`open, this`fuel, this`history
      ensures reply.Died? ==> fuel == 0
      ensures AtRest() && old(history) <= history
      ensures var known := id in old(jobs);
              var same := && known && old(jobs)[id].device == device && old(jobs)[id].actor == actor
                          && old(jobs)[id].change == change && old(jobs)[id].paths == paths;
              match reply
              case Done(_) =>
                if known then same && Now() == old(Now())
                else ready && Now() == old(Now()).(
                       jobs := old(jobs)[id := Job(device, actor, change, paths, base, expires, Queued, None)])
              case Denied => Now() == old(Now()) && if known then !same else !ready
              case Died => Now() == old(Now()) && !known && ready
    {
      hide History;
      if id in jobs {
        if !Mine(jobs[id], device, actor) || jobs[id].change != change || jobs[id].paths != paths { return Denied; }
        return Done(());
      }
      if !ready { return Denied; }
      var job := Job(device, actor, change, paths, base, expires, Queued, None);
      var ok := SaveJob(id, job, QueueJob(id, job));
      return if ok then Done(()) else Died;
    }

    /** The first live job of the device in the listing, with the dead ones before it failed; a device too old for its notes is refused. */
    method Claim(listing: seq<JobId>, device: DeviceId, actor: Actor, active: set<JobId>, notes: bool) returns (reply: Reply<Option<JobId>>)
      requires AtRest() && Lists(listing, jobs.Keys)
      modifies this`jobs, this`open, this`fuel, this`history
      ensures reply.Died? ==> fuel == 0
      ensures AtRest() && old(history) <= history && Now() == old(Now()).(jobs := jobs)
      ensures reply == Done(None) ==>
                && jobs == Swept(old(jobs), listing, device, actor, active, clock)
                && forall id :: id in jobs ==> !Live(old(jobs), id, device, actor, active, clock)
      ensures reply.Done? && reply.value.Some? ==>
                var id := reply.value.value;
                && Live(old(jobs), id, device, actor, active, clock) && (old(jobs)[id].change.Some? ==> notes)
                && exists i :: 0 <= i < |listing| && listing[i] == id
                     && jobs == Swept(old(jobs), listing[..i], device, actor, active, clock)[id := old(jobs)[id].(status := Working)]
                     && forall k :: 0 <= k < i ==> !Live(old(jobs), listing[k], device, actor, active, clock)
      ensures reply == Denied ==>
                !notes && exists i :: 0 <= i < |listing| && NeedsNotes(old(jobs), listing[i], device, actor)
                            && jobs == Swept(old(jobs), listing[..i], device, actor, active, clock)
                            && forall k :: 0 <= k < i ==> !Live(old(jobs), listing[k], device, actor, active, clock)
      ensures reply == Died ==> exists i :: 0 <= i < |listing| && jobs == Swept(old(jobs), listing[..i], device, actor, active, clock)
    {
      hide History, Swept;
      ghost var was := jobs;
      SweptNothing(was, device, actor, active, clock);
      assert listing[..0] == [];
      for i := 0 to |listing|
        invariant AtRest() && old(history) <= history && Now() == old(Now()).(jobs := jobs)
        invariant jobs == Swept(was, listing[..i], device, actor, active, clock)
        invariant forall k :: 0 <= k < i ==> !Live(was, listing[k], device, actor, active, clock)
      {
        var id := listing[i];
        SweptOneMore(was, listing, i, device, actor, active, clock);
        var job := jobs[id];
        if Mine(job, device, actor) && job.status == Queued {
          if job.change.Some? && !notes { return Denied; }
          if job.expires <= clock || id !in active {
            var failed := SaveJob(id, job.(status := JobStatus.Failed), ExpireJob(id));
            if !failed { return Died; }
          } else {
            var ok := SaveJob(id, job.(status := Working), ClaimJob(id));
            if !ok { return Died; }
            return Done(Some(id));
          }
        }
      }
      assert listing[..|listing|] == listing;
      return Done(None);
    }

    // ---------- Importing ----------

    ghost method Begin(k: ImportId, x: Import)
      requires Valid() && k !in imports && x.stage == Begun
      modifies this`imports, this`history
      ensures Valid() && old(history) <= history && Now() == old(Now()).(imports := old(imports)[k := x])
    {
      Extends1(history, Step.Begin(k, x));
      imports := imports[k := x];
      history := history + [Now()];
    }

    /** One command of an import, recorded under k. */
    ghost method Record(k: ImportId, before: State)
      requires History(history) && history[|history| - 1] == before && k in before.imports
      requires Command(before, before.imports[k]).0 == Now().(imports := before.imports)
      requires imports == before.imports
      modifies this`imports, this`history
      ensures Valid() && old(history) <= history
      ensures imports == before.imports[k := Command(before, before.imports[k]).1]
      ensures Now() == old(Now()).(imports := imports)
    {
      Extends1(history, Advance(k));
      imports := imports[k := Command(before, before.imports[k]).1];
      history := history + [Now()];
    }

    /** The bundle's prerequisites are there, the branch is at the base, and the head arrives with its history. */
    method Fetch(bundle: Bundle, base: Commit, head: Commit, ghost k: ImportId) returns (fetched: bool)
      requires Valid() && k !in imports
      modifies this`objects, this`imports, this`history
      ensures Valid() && old(history) <= history
      ensures fetched <==> && bundle.prerequisites <= old(objects) && tip == base
                           && head in old(objects) + bundle.objects && Closed(old(objects) + bundle.objects)
      ensures k in imports && (fetched ==> imports[k] == Import(base, head, bundle, Fetched))
    {
      hide History, Ancestor, Closed, Enabled, Effect;
      Begin(k, Import(base, head, bundle, Begun));
      Record(k, Now());
      if !(bundle.prerequisites <= objects) { return false; }
      Record(k, Now());
      if tip != base { return false; }
      ghost var before := Now();
      fetched := head in objects + bundle.objects && Closed(objects + bundle.objects);
      if fetched { objects := objects + bundle.objects; }
      Record(k, before);
    }

    /** A bundle moves the branch only from its base to a descendant of it. */
    method ImportBundle(bundle: Bundle, base: Commit, head: Commit, ghost k: ImportId) returns (reply: Reply<()>)
      requires Valid() && k !in imports
      modifies this`tip, this`objects, this`fuel, this`imports, this`log, this`history
      ensures reply.Died? ==> fuel == 0
      ensures Valid() && old(history) <= history
      ensures var fits := && bundle.prerequisites <= old(objects) && old(tip) == base
                          && head in old(objects) + bundle.objects && Closed(old(objects) + bundle.objects)
                          && Ancestor(base, head);
              match reply
              case Done(_) => fits && tip == head && k in imports && imports[k] == Import(base, head, bundle, Swapped)
              case Denied => !fits && tip == old(tip)
              case Died => fits && tip == old(tip)
    {
      hide History, Ancestor, Closed, Enabled, Effect;
      var fetched := Fetch(bundle, base, head, k);
      if !fetched { return Denied; }
      Record(k, Now());
      if !Ancestor(base, head) { return Denied; }
      if fuel == 0 { return Died; }
      fuel := fuel - 1;
      ghost var before := Now();
      tip := head;
      log := log + [head];
      Record(k, before);
      return Done(());
    }

    // ---------- The end of a job ----------

    method CreateBundle(id: JobId) returns (ok: bool)
      requires AtRest() && Enabled(Now(), ReceiveBundle(id))
      modifies this`bundles, this`open, this`fuel, this`history
      ensures !ok ==> fuel == 0
      ensures Valid() && old(history) <= history
      ensures Now() == if ok then old(Now()).(bundles := old(bundles) + {id}, open := {id}) else old(Now())
    {
      if fuel == 0 { return false; }
      fuel := fuel - 1;
      Extends1(history, ReceiveBundle(id));
      bundles := bundles + {id};
      open := {id};
      history := history + [Now()];
      return true;
    }

    ghost method EndUploads(id: JobId)
      requires Valid() && open <= {id}
      modifies this`open, this`history
      ensures AtRest() && old(history) <= history
    {
      Extends1(history, EndUpload(id));
      open := {};
      history := history + [Now()];
    }

    /**
     The bundle file is created once, then the branch moves, and only then the job says so. Whatever is refused or
     cut short after the file was created leaves it there, so that the job is abandoned.
     */
    method Complete(id: JobId, device: DeviceId, actor: Actor, head: Commit, bundle: Bundle, active: bool, ghost k: ImportId)
      returns (reply: Reply<()>)
      requires AtRest() && k !in imports
      modifies this`tip, this`objects, this`jobs, this`bundles, this`fuel, this`imports, this`open, this`log, this`history
      ensures reply.Died? ==> fuel == 0
      ensures Valid() && old(history) <= history
      ensures reply.Died? || open == {}
      ensures var mine := id in old(jobs) && old(jobs)[id].device == device && old(jobs)[id].actor == actor;
              var published := mine && old(jobs)[id].status == Published && old(jobs)[id].head == Some(head);
              var ready := mine && old(jobs)[id].status == Working && active && clock < old(jobs)[id].expires && id !in old(bundles);
              var fits := && ready && bundle.prerequisites <= old(objects) && old(tip) == old(jobs)[id].base
                          && head in old(objects) + bundle.objects && Closed(old(objects) + bundle.objects)
                          && Ancestor(old(tip), head);
              match reply
              case Done(_) =>
                if published then jobs == old(jobs) && tip == old(tip) && bundles == old(bundles)
                else
                  && fits && tip == head
                  && bundles == old(bundles) + {id}
                  && jobs == old(jobs)[id := old(jobs)[id].(status := Published, head := Some(head))]
              case Denied =>
                && !published && !fits && tip == old(tip) && jobs == old(jobs)
                && bundles == (if ready then old(bundles) + {id} else old(bundles))
              case Died =>
                && !published && ready && jobs == old(jobs)
                && (if tip == old(tip) then bundles == old(bundles) || bundles == old(bundles) + {id}
                    else tip == head && bundles == old(bundles) + {id})
    {
      hide History, Enabled, Effect;
      if id !in jobs || !Mine(jobs[id], device, actor) { return Denied; }
      var job := jobs[id];
      if job.status == Published && job.head == Some(head) { return Done(()); }
      if !active || job.status != Working || job.expires <= clock { return Denied; }
      if id in bundles { return Denied; }
      MayReceive(Now(), id);
      var ok := CreateBundle(id);
      if !ok { return Died; }
      reply := ImportBundle(bundle, job.base, head, k);
      if reply.Denied? {
        EndUploads(id);
        return Denied;
      }
      if reply.Died? { return Died; }
      MayPublish(Now(), id, k);
      ok := SaveJob(id, job.(status := Published, head := Some(head)), PublishJob(id, k));
      if !ok { return Died; }
      return Done(());
    }

    /** Only the device working on a job can report that it failed. */
    method Fail(id: JobId, device: DeviceId, actor: Actor) returns (reply: Reply<()>)
      requires AtRest()
      modifies this`jobs, this`open, this`fuel, this`history
      ensures reply.Died? ==> fuel == 0
      ensures AtRest() && old(history) <= history
      ensures reply != Denied <==> && id in old(jobs) && old(jobs)[id].device == device && old(jobs)[id].actor == actor
                                   && old(jobs)[id].status == Working
      ensures Now() == if reply.Done? then old(Now()).(jobs := old(jobs)[id := old(jobs)[id].(status := JobStatus.Failed)]) else old(Now())
    {
      hide History;
      if id !in jobs || !Mine(jobs[id], device, actor) || jobs[id].status != Working { return Denied; }
      var ok := SaveJob(id, jobs[id].(status := JobStatus.Failed), FailJob(id));
      return if ok then Done(()) else Died;
    }
  }

  lemma MayReceive(s: State, id: JobId)
    requires id in s.jobs && s.jobs[id].status == Working && s.clock < s.jobs[id].expires && id !in s.bundles
    ensures Enabled(s, ReceiveBundle(id))
  {
  }

  lemma MayPublish(s: State, id: JobId, k: ImportId)
    requires id in s.jobs && s.jobs[id].status == Working && s.open == {id}
    requires k in s.imports && s.imports[k].stage == Swapped && s.imports[k].base == s.jobs[id].base
    ensures Enabled(s, PublishJob(id, k))
    ensures var t := Effect(s, PublishJob(id, k));
            t == s.(jobs := s.jobs[id := s.jobs[id].(status := Published, head := Some(s.imports[k].head))], open := {})
  {
  }

  predicate NeedsNotes(jobs: map<JobId, Job>, id: JobId, device: DeviceId, actor: Actor) {
    id in jobs && jobs[id].device == device && jobs[id].actor == actor && jobs[id].status == Queued && jobs[id].change.Some?
  }
}
