/**
 The single-target deployment store: every durable write, made by a call, by a build running in the
 background, by the target's receipts or by a restart, and what all of them together keep.
 */
module Servix {
  import opened Basics

  type RequestId = nat
  type Code = nat

  datatype Status = Publishing | Building | Activating | Succeeded | Failed | RecoveryRequired
  datatype Operation = Deploy | Rollback | Restore

  datatype Run = Run(
    id: RequestId, actor: Actor, change: nat, operation: Operation, connector: Option<nat>,
    release: Option<RequestId>, previous: Option<RequestId>, status: Status, head: Option<Head>,
    digest: Option<Digest>, created: Time, updated: Time, expires: Time, error: Option<Code>)

  /** What the target reports about an activation, and a release kept on disk with whether its bytes still match. */
  datatype Receipt = Receipt(head: Option<Head>, digest: Digest, status: Status, error: Option<Code>)
  datatype Build = Build(manifest: Digest, archive: Digest, intact: bool)

  /**
   `tasks` are the builds running in this process, each with the record as it last knew it; they are
   all that a restart loses.
   */
  datatype State = State(
    jobs: map<RequestId, Run>, results: map<RequestId, Receipt>, builds: map<RequestId, Build>,
    requests: set<RequestId>, tasks: map<RequestId, Run>, clock: Time)

  const EMPTY := State(map[], map[], map[], {}, map[], 0)
  const LIFETIME: nat := 40 * 60000
  const INTERRUPTED: Code := 1
  const UNCONFIRMED: Code := 2

  predicate Active(run: Run) {
    run.status == Publishing || run.status == Building || run.status == Activating || run.status == RecoveryRequired
  }

  predicate Open(run: Run) {
    run.status == Publishing || run.status == Building || run.status == Activating
  }

  /** A receipt counts only for the head and the artifact that were handed over. */
  predicate Matches(run: Run, receipt: Receipt) {
    && receipt.head == run.head && run.digest == Some(receipt.digest)
    && (receipt.status == Succeeded || receipt.status == Failed || receipt.status == RecoveryRequired)
  }

  predicate Interrupted(run: Run, running: bool, now: Time) {
    run.expires < now || ((run.status == Publishing || run.status == Building) && !running)
  }

  // ---------- One durable write ----------

  datatype Write =
    | Tick(now: Time)
    | AddDeploy(run: Run)
    | AddRestore(run: Run)
    | Publish(id: RequestId, head: Head)
    | Activate(id: RequestId, digest: Digest)
    | HandOver(id: RequestId)
    | Unconfirmed(id: RequestId)
    | FailTask(id: RequestId, error: Code)
    | Interrupt(id: RequestId)
    | Accept(id: RequestId)
    | PutReceipt(id: RequestId, receipt: Receipt)
    | PutBuild(id: RequestId, build: Build)
    | Restart

  ghost predicate Idle(jobs: map<RequestId, Run>) {
    forall id :: id in jobs ==> !Active(jobs[id])
  }

  /** A succeeded deployment that a run's release, head and artifact come from. */
  ghost predicate OriginOf(jobs: map<RequestId, Run>, o: RequestId, run: Run) {
    && o in jobs && jobs[o].status == Succeeded && jobs[o].release.None? && jobs[o].operation == Deploy
    && jobs[o].head.Some? && jobs[o].digest.Some?
    && jobs[o].head == run.head && jobs[o].digest == run.digest
  }

  ghost predicate Enabled(s: State, w: Write) {
    match w
    case Tick(now) => s.clock <= now
    case AddDeploy(run) =>
      && run.id !in s.jobs && Idle(s.jobs)
      && run.operation == Deploy && run.release.None? && run.digest.None?
      && (run.status == (if run.head.None? then Publishing else Building))
      && run.expires == s.clock + LIFETIME
    case AddRestore(run) =>
      && run.id !in s.jobs && Idle(s.jobs) && run.status == Activating
      && run.operation != Deploy && run.release.Some? && OriginOf(s.jobs, run.release.value, run)
    case Publish(id, head) => id in s.tasks && id in s.jobs && s.tasks[id].status == Publishing
    case Activate(id, digest) =>
      && id in s.tasks && id in s.jobs && s.tasks[id].status == Building && s.clock <= s.tasks[id].expires
    case HandOver(id) => id in s.jobs && s.jobs[id].status == Activating
    case Unconfirmed(id) => id in s.jobs && s.jobs[id].status == Activating
    case FailTask(id, error) => id in s.tasks && id in s.jobs
    case Interrupt(id) => id in s.jobs && Open(s.jobs[id]) && Interrupted(s.jobs[id], id in s.tasks, s.clock)
    case Accept(id) => id in s.jobs && Open(s.jobs[id]) && id in s.results && Matches(s.jobs[id], s.results[id])
    case PutReceipt(id, receipt) => true
    case PutBuild(id, build) => true
    case Restart => true
  }

  function Settled(run: Run, receipt: Receipt, now: Time): Run {
    run.(status := receipt.status, error := if receipt.error.Some? then receipt.error else run.error, updated := now)
  }

  function Stopped(run: Run, now: Time): Run {
    run.(status := if run.status == Activating then RecoveryRequired else Failed, error := Some(INTERRUPTED), updated := now)
  }

  function Published(run: Run, head: Head, now: Time): Run {
    run.(head := Some(head), status := Building, updated := now)
  }

  function Activated(run: Run, digest: Digest, now: Time): Run {
    run.(status := Activating, digest := Some(digest), updated := now)
  }

  /** A task writes back the record as it last knew it, not the record on disk. */
  ghost function Effect(s: State, w: Write): State
    requires Enabled(s, w)
  {
    match w
    case Tick(now) => s.(clock := now)
    case AddDeploy(run) => s.(jobs := s.jobs[run.id := run], tasks := s.tasks[run.id := run])
    case AddRestore(run) => s.(jobs := s.jobs[run.id := run])
    case Publish(id, head) =>
      var run := Published(s.tasks[id], head, s.clock);
      s.(jobs := s.jobs[id := run], tasks := s.tasks[id := run])
    case Activate(id, digest) =>
      s.(jobs := s.jobs[id := Activated(s.tasks[id], digest, s.clock)], tasks := s.tasks - {id})
    case HandOver(id) => s.(requests := s.requests + {id})
    case Unconfirmed(id) =>
      s.(jobs := s.jobs[id := s.jobs[id].(status := RecoveryRequired, error := Some(UNCONFIRMED))])
    case FailTask(id, error) =>
      s.(jobs := s.jobs[id := s.tasks[id].(status := Failed, error := Some(error), updated := s.clock)],
         tasks := s.tasks - {id})
    case Interrupt(id) => s.(jobs := s.jobs[id := Stopped(s.jobs[id], s.clock)])
    case Accept(id) => s.(jobs := s.jobs[id := Settled(s.jobs[id], s.results[id], s.clock)])
    case PutReceipt(id, receipt) => s.(results := s.results[id := receipt])
    case PutBuild(id, build) => s.(builds := s.builds[id := build])
    case Restart => s.(tasks := map[])
  }

  // ---------- What every write keeps ----------

  /** Holds in every state, however late a publication is; that only one run is active needs `Timely`. */
  ghost predicate Inv(s: State) {
    && (forall id :: id in s.tasks ==> TaskOk(s, id))
    && (forall id :: id in s.jobs ==> JobOk(s, id))
  }

  ghost predicate OneActive(jobs: map<RequestId, Run>) {
    forall p, q :: p in jobs && q in jobs && Active(jobs[p]) && Active(jobs[q]) ==> p == q
  }

  /** A task still agrees with its record, unless the record was given up when it expired. */
  ghost predicate TaskOk(s: State, id: RequestId)
    requires id in s.tasks
  {
    var run := s.tasks[id];
    && id in s.jobs && (run.status == Publishing || run.status == Building)
    && run.id == id && run.release.None? && run.operation == Deploy && run.digest.None?
    && (run.status == Building ==> run.head.Some?)
    && (s.jobs[id] == run || (s.jobs[id].status == Failed && s.jobs[id].expires == run.expires && run.expires < s.clock))
  }

  ghost predicate JobOk(s: State, id: RequestId)
    requires id in s.jobs
  {
    var run := s.jobs[id];
    && run.id == id
    && (run.status == Activating || run.status == Succeeded ==> run.head.Some? && run.digest.Some?)
    && (run.status == Publishing || run.status == Building ==> run.digest.None?)
    && (run.status == Building ==> run.head.Some?)
    && (run.release.None? <==> run.operation == Deploy)
    && (run.release.Some? ==> OriginOf(s.jobs, run.release.value, run))
  }

  /** The publication of the source is over before the run's forty minutes are. */
  predicate Timely(s: State, w: Write) {
    w.Publish? && w.id in s.tasks ==> s.clock <= s.tasks[w.id].expires
  }

  lemma WriteKeepsOneActive(s: State, w: Write)
    requires Inv(s) && OneActive(s.jobs) && Enabled(s, w) && Timely(s, w)
    ensures OneActive(Effect(s, w).jobs)
  {
    if w.Publish? || w.Activate? || w.FailTask? {
      assert TaskOk(s, w.id);
    }
  }

  lemma WriteKeepsJobs(s: State, w: Write, id: RequestId)
    requires Inv(s) && Enabled(s, w) && id in Effect(s, w).jobs
    ensures JobOk(Effect(s, w), id)
  {
    if w.Publish? || w.Activate? || w.FailTask? {
      assert TaskOk(s, w.id);
    }
    if id in s.jobs {
      assert JobOk(s, id);
    }
  }

  /** A receipt that fits is for an artifact, which a run still being built does not have. */
  lemma AcceptedHasNoTask(s: State, id: RequestId)
    requires Inv(s) && Enabled(s, Accept(id))
    ensures id !in s.tasks
  {
    assert forall t :: t in s.tasks ==> TaskOk(s, t);
  }

  lemma WriteKeepsTasks(s: State, w: Write, id: RequestId)
    requires Inv(s) && Enabled(s, w) && id in Effect(s, w).tasks
    ensures TaskOk(Effect(s, w), id)
  {
    hide OriginOf, Idle, Matches;
    if id in s.tasks {
      assert TaskOk(s, id) && JobOk(s, id);
    }
    if w.Accept? {
      AcceptedHasNoTask(s, w.id);
    }
  }

  lemma WriteKeeps(s: State, w: Write)
    requires Inv(s) && Enabled(s, w)
    ensures Inv(Effect(s, w))
  {
    hide TaskOk, JobOk, Effect, Enabled;
    forall id | id in Effect(s, w).tasks ensures TaskOk(Effect(s, w), id) {
      WriteKeepsTasks(s, w, id);
    }
    forall id | id in Effect(s, w).jobs ensures JobOk(Effect(s, w), id) {
      WriteKeepsJobs(s, w, id);
    }
  }

  // ---------- Histories ----------

  ghost predicate Next(s: State, t: State) {
    exists w :: Enabled(s, w) && t == Effect(s, w)
  }

  ghost predicate NextInTime(s: State, t: State) {
    exists w :: Enabled(s, w) && Timely(s, w) && t == Effect(s, w)
  }

  /** The states of the store, one per write, across restarts. */
  ghost predicate History(h: seq<State>) {
    h != [] && h[0] == EMPTY && forall i :: 0 <= i < |h| - 1 ==> Next(h[i], h[i + 1])
  }

  ghost predicate InTime(h: seq<State>) {
    forall i :: 0 <= i < |h| - 1 ==> NextInTime(h[i], h[i + 1])
  }

  lemma {:induction false} EveryStateIsSound(h: seq<State>, i: nat)
    requires History(h) && i < |h|
    ensures Inv(h[i])
  {
    hide Inv, Effect, Enabled;
    if i == 0 {
      EmptyIsSound();
    } else {
      EveryStateIsSound(h, i - 1);
      assert Next(h[i - 1], h[i - 1 + 1]);
      var w :| Enabled(h[i - 1], w) && h[i] == Effect(h[i - 1], w);
      WriteKeeps(h[i - 1], w);
    }
  }

  lemma EmptyIsSound()
    ensures Inv(EMPTY) && OneActive(EMPTY.jobs)
  {
  }

  lemma {:induction false} OneActiveAlways(h: seq<State>, i: nat)
    requires History(h) && InTime(h) && i < |h|
    ensures OneActive(h[i].jobs)
  {
    hide Inv, Effect, Enabled, OneActive;
    if i == 0 {
      EmptyIsSound();
    } else {
      OneActiveAlways(h, i - 1);
      EveryStateIsSound(h, i - 1);
      assert NextInTime(h[i - 1], h[i - 1 + 1]);
      var w :| Enabled(h[i - 1], w) && Timely(h[i - 1], w) && h[i] == Effect(h[i - 1], w);
      WriteKeepsOneActive(h[i - 1], w);
    }
  }

  /** While no publication outlives its run, at most one run is under way or waits for recovery. */
  lemma AtMostOneActive(h: seq<State>, i: nat, p: RequestId, q: RequestId)
    requires History(h) && InTime(h) && i < |h| && p in h[i].jobs && q in h[i].jobs
    requires h[i].jobs[p].status in {Publishing, Building, Activating, RecoveryRequired}
    requires h[i].jobs[q].status in {Publishing, Building, Activating, RecoveryRequired}
    ensures p == q
  {
    OneActiveAlways(h, i);
  }

  /**
   The save after a publication checks no expiry, so its premise matters: it keeps one run active exactly
   when no other run became active, and one that is in time always does.
   */
  lemma LatePublicationKeepsOneActiveIff(s: State, id: RequestId, head: Head)
    requires Inv(s) && OneActive(s.jobs) && Enabled(s, Publish(id, head))
    ensures OneActive(Effect(s, Publish(id, head)).jobs) <==> forall q :: q in s.jobs && q != id ==> !Active(s.jobs[q])
    ensures s.clock <= s.tasks[id].expires ==> forall q :: q in s.jobs && q != id ==> !Active(s.jobs[q])
  {
    assert TaskOk(s, id);
    var t := Effect(s, Publish(id, head));
    assert Active(t.jobs[id]);
    forall q | q in s.jobs && q != id && Active(s.jobs[q]) ensures !OneActive(t.jobs) {
      assert Active(t.jobs[q]) && Active(t.jobs[id]);
    }
  }

  /** It can fail: a run given up at its expiry comes back to life beside its successor. */
  lemma LatePublicationBreaksExclusion() returns (h: seq<State>)
    ensures History(h) && !OneActive(h[|h| - 1].jobs)
  {
    var a := Run(1, 0, 0, Deploy, Some(0), None, None, Publishing, None, None, 0, 0, LIFETIME, None);
    var b := a.(id := 2, created := LIFETIME + 1, updated := LIFETIME + 1, expires := LIFETIME + 1 + LIFETIME);
    var s0 := EMPTY;
    var s1 := Effect(s0, AddDeploy(a));
    var s2 := Effect(s1, Tick(LIFETIME + 1));
    var s3 := Effect(s2, Interrupt(1));
    var s4 := Effect(s3, AddDeploy(b));
    var s5 := Effect(s4, Publish(1, 7));
    h := [s0, s1, s2, s3, s4, s5];
    assert Next(s0, s1) && Next(s1, s2) && Next(s2, s3) && Next(s3, s4) && Next(s4, s5);
    assert 1 in s5.jobs && 2 in s5.jobs && Active(s5.jobs[1]) && Active(s5.jobs[2]);
  }

  // ---------- What is final ----------

  predicate Final(run: Run) {
    run.status == Succeeded || run.status == RecoveryRequired
  }

  /** No background build is left for a run that was handed over. */
  lemma NoTaskFor(s: State, id: RequestId)
    requires Inv(s) && id in s.jobs && (Final(s.jobs[id]) || s.jobs[id].status == Activating)
    ensures id !in s.tasks
  {
    assert forall t :: t in s.tasks ==> TaskOk(s, t);
  }

  lemma WriteKeepsFinal(s: State, w: Write, id: RequestId)
    requires Inv(s) && Enabled(s, w) && id in s.jobs && Final(s.jobs[id])
    ensures id in Effect(s, w).jobs && Effect(s, w).jobs[id] == s.jobs[id]
  {
    hide JobOk, Inv;
    NoTaskFor(s, id);
  }

  /** A succeeded run never changes again, and neither does one that needs recovery. */
  lemma {:induction false} FinalIsForever(h: seq<State>, i: nat, k: nat, id: RequestId)
    requires History(h) && i <= k < |h| && id in h[i].jobs && Final(h[i].jobs[id])
    ensures id in h[k].jobs && h[k].jobs[id] == h[i].jobs[id]
    decreases k
  {
    hide Inv, Effect, Enabled;
    if i < k {
      FinalIsForever(h, i, k - 1, id);
      EveryStateIsSound(h, k - 1);
      assert Next(h[k - 1], h[k - 1 + 1]);
      var w :| Enabled(h[k - 1], w) && h[k] == Effect(h[k - 1], w);
      WriteKeepsFinal(h[k - 1], w, id);
    }
  }

  /** Once a run needs recovery the store accepts no further deployment or restore. */
  lemma RecoveryBlocksTheTarget(h: seq<State>, i: nat, k: nat, id: RequestId, run: Run)
    requires History(h) && i <= k < |h| && id in h[i].jobs && h[i].jobs[id].status == RecoveryRequired
    ensures !Enabled(h[k], AddDeploy(run)) && !Enabled(h[k], AddRestore(run))
  {
    FinalIsForever(h, i, k, id);
    assert Active(h[k].jobs[id]);
  }

  /** An activation is resolved only by a matching receipt; anything else leaves it active or needing recovery. */
  lemma ActivationNeedsReceipt(h: seq<State>, i: nat, id: RequestId)
    requires History(h) && i + 1 < |h| && id in h[i].jobs && h[i].jobs[id].status == Activating
    ensures id in h[i + 1].jobs
    ensures var after := h[i + 1].jobs[id].status;
            after != Activating && after != RecoveryRequired ==>
              && id in h[i].results
              && var receipt := h[i].results[id];
              after == receipt.status && receipt.head == h[i].jobs[id].head && h[i].jobs[id].digest == Some(receipt.digest)
  {
    hide JobOk, Inv;
    EveryStateIsSound(h, i);
    NoTaskFor(h[i], id);
    assert Next(h[i], h[i + 1]);
  }

  /** The lineage has depth one, now and ever after: what a restore released was itself built and deployed. */
  lemma RestoresNameDeployments(h: seq<State>, i: nat, k: nat, id: RequestId)
    requires History(h) && i <= k < |h| && id in h[i].jobs && h[i].jobs[id].operation != Deploy
    ensures h[i].jobs[id].release.Some? && h[i].jobs[id].release != Some(id)
    ensures OriginOf(h[k].jobs, h[i].jobs[id].release.value, h[i].jobs[id])
  {
    EveryStateIsSound(h, i);
    assert JobOk(h[i], id);
    FinalIsForever(h, i, k, h[i].jobs[id].release.value);
  }
}
