/**
 Pairing a system in five ordered writes: intent, approving, consumed, device, approved.
 Every write is one step, so other calls, crashes and retries may fall between any two. Files that
 are created in place can be left torn by a crash; files that are replaced cannot.
 */
module Pairing {
  import opened Basics

  type DeviceId = nat
  type EnrollmentId = nat

  datatype File<+T> = Torn | Whole(value: T)

  datatype Proposal = Proposal(
    device: DeviceId, credential: Digest, poll: Digest, code: Digest, fileActivity: bool, details: nat)

  /** What an enrollment's digest is taken over; equal digests mean equal targets. */
  datatype Target = Target(proposal: Proposal, id: EnrollmentId, created: Time, expires: Time)

  datatype Status = Pending | Approving | Approved | Rejected
  datatype Enrollment = Enrollment(target: Target, status: Status, actor: Option<Actor>)
  datatype Evidence = Evidence(actor: Actor, device: DeviceId, target: Target, expires: Option<Time>)
  datatype Device = Device(owner: Actor, credential: Digest, active: bool)

  /**
   `policies` holds the latest policy of each device. `blinded` are the actors for whom some other record that
   discovery reads is unreadable just now: an observation, activity settings, a project's plan.
   `ids` holds every enrollment id ever given out, `enrolled` the enrollment each device was created for.
   Both are history variables.
   */
  datatype State = State(
    records: map<DeviceId, File<Enrollment>>, intents: map<EnrollmentId, File<Evidence>>,
    consumed: map<EnrollmentId, File<Evidence>>, devices: map<DeviceId, File<Device>>,
    policies: map<DeviceId, File<Actor>>, blinded: set<Actor>, clock: Time,
    ids: set<EnrollmentId>, enrolled: map<DeviceId, EnrollmentId>)

  const EMPTY := State(map[], map[], map[], map[], map[], {}, 0, {}, map[])
  const ADMINISTRATOR: Actor := 0
  const LIFETIME: nat := 600000
  const KEPT: nat := 1800000

  predicate Recorded(s: State, d: DeviceId) {
    d in s.records && s.records[d].Whole?
  }

  predicate Committed(e: Enrollment) {
    e.status == Approving || e.status == Approved
  }

  predicate CommittedTo(s: State, d: DeviceId, actor: Actor) {
    Recorded(s, d) && Committed(s.records[d].value) && s.records[d].value.actor == Some(actor)
  }

  function IntentOf(target: Target, actor: Actor): Evidence {
    Evidence(actor, target.proposal.device, target, Some(target.expires))
  }

  function UseOf(target: Target, actor: Actor): Evidence {
    Evidence(actor, target.proposal.device, target, None)
  }

  predicate Holds<K, V(==)>(files: map<K, File<V>>, key: K, value: V) {
    key in files && files[key] == Whole(value)
  }

  predicate Belongs(s: State, d: DeviceId, actor: Actor, credential: Digest) {
    && d in s.devices && s.devices[d].Whole?
    && s.devices[d].value.owner == actor && s.devices[d].value.credential == credential
  }

  /** Discovery shows an actor its own devices, and the administrator everybody's. */
  predicate Visible(devices: map<DeviceId, File<Device>>, d: DeviceId, actor: Actor) {
    d in devices && devices[d].Whole? && (devices[d].value.owner == actor || actor == ADMINISTRATOR)
  }

  predicate Readable<K, V>(files: map<K, File<V>>) {
    forall k :: k in files ==> files[k].Whole?
  }

  // ---------- One durable write ----------

  datatype Write =
    | Tick(now: Time)
    | AddRecord(d: DeviceId, target: Target)
    | PutIntent(d: DeviceId, actor: Actor)
    | MarkApproving(d: DeviceId, actor: Actor)
    | PutUse(d: DeviceId, actor: Actor)
    | PutDevice(d: DeviceId, actor: Actor)
    | PutPolicy(d: DeviceId, actor: Actor)
    | RevisePolicy(d: DeviceId, actor: Actor)
    | Blind(actors: set<Actor>)
    | MarkApproved(d: DeviceId)
    | MarkRejected(d: DeviceId, actor: Actor)
    | Unlink(d: DeviceId)
    | PairDevice(d: DeviceId, device: Device)
    | RevokeDevice(d: DeviceId)

  predicate InPlace(w: Write) {
    w.AddRecord? || w.PutIntent? || w.PutUse? || w.PutDevice? || w.PutPolicy? || w.RevisePolicy? || w.PairDevice?
  }

  predicate Enabled(s: State, w: Write) {
    match w
    case Tick(now) => s.clock <= now
    case AddRecord(d, target) =>
      && d !in s.records && target.proposal.device == d && target.id !in s.ids
      && target.created == s.clock && target.expires == s.clock + LIFETIME
    case PutIntent(d, actor) =>
      Recorded(s, d) && s.records[d].value.status == Pending && s.records[d].value.target.id !in s.intents
    case MarkApproving(d, actor) =>
      && Recorded(s, d) && s.records[d].value.status == Pending
      && Holds(s.intents, s.records[d].value.target.id, IntentOf(s.records[d].value.target, actor))
    case PutUse(d, actor) =>
      && CommittedTo(s, d, actor) && s.records[d].value.status == Approving
      && s.records[d].value.target.id !in s.consumed
    case PutDevice(d, actor) =>
      CommittedTo(s, d, actor) && Used(s, d, actor) && d !in s.devices
    case PutPolicy(d, actor) =>
      d in s.devices && s.devices[d].Whole? && s.devices[d].value.owner == actor && d !in s.policies
    case RevisePolicy(d, actor) =>
      && d in s.devices && s.devices[d].Whole? && s.devices[d].value.owner == actor
      && d in s.policies && s.policies[d].Whole?
    case Blind(actors) => true
    case MarkApproved(d) =>
      && Recorded(s, d) && s.records[d].value.status == Approving && s.records[d].value.actor.Some?
      && var e := s.records[d].value;
      && Used(s, d, e.actor.value) && Belongs(s, d, e.actor.value, e.target.proposal.credential)
      && (e.target.proposal.fileActivity ==> d in s.policies && s.policies[d].Whole?)
    case MarkRejected(d, actor) => Recorded(s, d) && s.records[d].value.status == Pending
    case Unlink(d) => Recorded(s, d) && Stale(s.records[d].value, s.clock)
    case PairDevice(d, device) => d !in s.devices
    case RevokeDevice(d) => d in s.devices && s.devices[d].Whole?
  }

  predicate Used(s: State, d: DeviceId, actor: Actor)
    requires Recorded(s, d)
  {
    Holds(s.consumed, s.records[d].value.target.id, UseOf(s.records[d].value.target, actor))
  }

  predicate Stale(e: Enrollment, now: Time) {
    (e.status == Pending || e.status == Rejected) && now - e.target.expires > KEPT
  }

  function Put<T>(torn: bool, value: T): File<T> {
    if torn then Torn else Whole(value)
  }

  /** The records after a write; `torn` when the process died in the middle of creating the file. */
  function Effect(s: State, w: Write, torn: bool): State
    requires Enabled(s, w) && (torn ==> InPlace(w))
  {
    match w
    case Tick(now) => s.(clock := now)
    case AddRecord(d, target) =>
      s.(records := s.records[d := Put(torn, Enrollment(target, Pending, None))], ids := s.ids + {target.id})
    case PutIntent(d, actor) =>
      var target := s.records[d].value.target;
      s.(intents := s.intents[target.id := Put(torn, IntentOf(target, actor))])
    case MarkApproving(d, actor) =>
      s.(records := s.records[d := Whole(s.records[d].value.(status := Approving, actor := Some(actor)))])
    case PutUse(d, actor) =>
      var target := s.records[d].value.target;
      s.(consumed := s.consumed[target.id := Put(torn, UseOf(target, actor))])
    case PutDevice(d, actor) =>
      var target := s.records[d].value.target;
      s.(devices := s.devices[d := Put(torn, Device(actor, target.proposal.credential, true))],
         enrolled := s.enrolled[d := target.id])
    case PutPolicy(d, actor) => s.(policies := s.policies[d := Put(torn, actor)])
    case RevisePolicy(d, actor) => s.(policies := s.policies[d := Put(torn, actor)])
    case Blind(actors) => s.(blinded := actors)
    case MarkApproved(d) => s.(records := s.records[d := Whole(s.records[d].value.(status := Approved))])
    case MarkRejected(d, actor) =>
      s.(records := s.records[d := Whole(s.records[d].value.(status := Rejected, actor := Some(actor)))])
    case Unlink(d) => s.(records := s.records - {d})
    case PairDevice(d, device) => s.(devices := s.devices[d := Put(torn, device)])
    case RevokeDevice(d) => s.(devices := s.devices[d := Whole(s.devices[d].value.(active := false))])
  }

  ghost predicate Next(s: State, t: State) {
    exists w, torn :: Enabled(s, w) && (torn ==> InPlace(w)) && t == Effect(s, w, torn)
  }

  /** The durable states of the store, one per write, of whoever made it. */
  ghost predicate History(h: seq<State>) {
    && h != [] && h[0] == EMPTY
    && forall i :: 0 <= i < |h| - 1 ==> Next(h[i], h[i + 1])
  }

  // ---------- What every write keeps ----------

  ghost predicate Inv(s: State) {
    && (forall d :: Recorded(s, d) ==> RecordOk(s, d))
    && IdsDistinct(s)
    && (forall id :: id in s.intents || id in s.consumed ==> id in s.ids)
    && (forall id :: id in s.consumed ==> ConsumedOk(s, id))
    && (forall d :: d in s.enrolled ==> EnrolledOk(s, d))
  }

  ghost predicate IdsDistinct(s: State) {
    forall c, d :: Recorded(s, c) && Recorded(s, d) && c != d
      ==> s.records[c].value.target.id != s.records[d].value.target.id
  }

  ghost predicate RecordOk(s: State, d: DeviceId)
    requires Recorded(s, d)
  {
    var e := s.records[d].value;
    && e.target.proposal.device == d && e.target.id in s.ids
    && (e.actor.None? <==> e.status == Pending)
    && (Committed(e) ==> Holds(s.intents, e.target.id, IntentOf(e.target, e.actor.value)))
    && (e.status == Approved ==>
          && Used(s, d, e.actor.value) && Belongs(s, d, e.actor.value, e.target.proposal.credential)
          && (e.target.proposal.fileActivity ==> d in s.policies))
  }

  /** Consumed evidence belongs to a committed record and repeats its actor, device and digest. */
  ghost predicate ConsumedOk(s: State, id: EnrollmentId)
    requires id in s.consumed
  {
    exists d :: Recorded(s, d) && s.records[d].value.target.id == id && Committed(s.records[d].value)
             && s.records[d].value.actor.Some?
             && (s.consumed[id] == Torn || Used(s, d, s.records[d].value.actor.value))
  }

  /** A device created by an approval belongs to the actor, device and credential of its consumed evidence. */
  ghost predicate EnrolledOk(s: State, d: DeviceId)
    requires d in s.enrolled
  {
    && Recorded(s, d) && d in s.devices && s.records[d].value.target.id == s.enrolled[d]
    && var e := s.records[d].value;
    && Committed(e) && e.actor.Some? && Used(s, d, e.actor.value)
    && (s.devices[d].Whole? ==> Belongs(s, d, e.actor.value, e.target.proposal.credential))
  }

  lemma WriteKeepsRecord(s: State, w: Write, torn: bool, d: DeviceId)
    requires Inv(s) && Enabled(s, w) && (torn ==> InPlace(w)) && Recorded(Effect(s, w, torn), d)
    ensures RecordOk(Effect(s, w, torn), d)
  {
    hide ConsumedOk, EnrolledOk;
    if Recorded(s, d) {
      assert RecordOk(s, d);
    }
  }

  lemma WriteKeepsIds(s: State, w: Write, torn: bool)
    requires Inv(s) && Enabled(s, w) && (torn ==> InPlace(w))
    ensures IdsDistinct(Effect(s, w, torn))
  {
    hide ConsumedOk, EnrolledOk;
    var t := Effect(s, w, torn);
    forall c, d | Recorded(t, c) && Recorded(t, d) && c != d
      ensures t.records[c].value.target.id != t.records[d].value.target.id
    {
      assert Recorded(s, c) || w == AddRecord(c, t.records[c].value.target);
      assert Recorded(s, d) || w == AddRecord(d, t.records[d].value.target);
      assert Recorded(s, c) ==> RecordOk(s, c);
      assert Recorded(s, d) ==> RecordOk(s, d);
    }
  }

  lemma WriteKeepsConsumed(s: State, w: Write, torn: bool, id: EnrollmentId)
    requires Inv(s) && Enabled(s, w) && (torn ==> InPlace(w)) && id in Effect(s, w, torn).consumed
    ensures ConsumedOk(Effect(s, w, torn), id)
  {
    hide EnrolledOk, RecordOk;
    var t := Effect(s, w, torn);
    if id in s.consumed {
      var d :| Recorded(s, d) && s.records[d].value.target.id == id && Committed(s.records[d].value)
               && s.records[d].value.actor.Some?
               && (s.consumed[id] == Torn || Used(s, d, s.records[d].value.actor.value));
      assert Recorded(t, d) && t.records[d].value.target == s.records[d].value.target;
    } else {
      assert w.PutUse? && s.records[w.d].value.target.id == id;
      assert Recorded(t, w.d);
    }
  }

  lemma EnrolledStaysOk(s: State, w: Write, torn: bool, d: DeviceId)
    requires d in s.enrolled && EnrolledOk(s, d) && RecordOk(s, d) && Enabled(s, w) && (torn ==> InPlace(w))
    ensures d in Effect(s, w, torn).enrolled && EnrolledOk(Effect(s, w, torn), d)
  {
  }

  lemma WriteKeepsEnrolled(s: State, w: Write, torn: bool, d: DeviceId)
    requires Inv(s) && Enabled(s, w) && (torn ==> InPlace(w)) && d in Effect(s, w, torn).enrolled
    ensures EnrolledOk(Effect(s, w, torn), d)
  {
    hide ConsumedOk, RecordOk, IdsDistinct;
    if d in s.enrolled {
      assert EnrolledOk(s, d) && RecordOk(s, d);
      EnrolledStaysOk(s, w, torn, d);
    } else {
      assert w.PutDevice? && w.d == d;
      assert RecordOk(s, d);
    }
  }

  lemma WriteKeeps(s: State, w: Write, torn: bool)
    requires Inv(s) && Enabled(s, w) && (torn ==> InPlace(w))
    ensures Inv(Effect(s, w, torn))
  {
    hide ConsumedOk, EnrolledOk, RecordOk, IdsDistinct;
    var t := Effect(s, w, torn);
    WriteKeepsIds(s, w, torn);
    forall d | Recorded(t, d) ensures RecordOk(t, d) {
      WriteKeepsRecord(s, w, torn, d);
    }
    forall id | id in t.consumed ensures ConsumedOk(t, id) {
      WriteKeepsConsumed(s, w, torn, id);
    }
    forall d | d in t.enrolled ensures EnrolledOk(t, d) {
      WriteKeepsEnrolled(s, w, torn, d);
    }
    IdsCover(s, w, torn);
  }

  lemma IdsCover(s: State, w: Write, torn: bool)
    requires Inv(s) && Enabled(s, w) && (torn ==> InPlace(w))
    ensures var t := Effect(s, w, torn); forall id :: id in t.intents || id in t.consumed ==> id in t.ids
  {
    hide ConsumedOk, EnrolledOk, IdsDistinct;
  }

  // ---------- Nothing decided is undone ----------

  /** What every later state still shows of an earlier one. */
  ghost predicate Later(s: State, t: State) {
    && s.clock <= t.clock && s.ids <= t.ids
    && Kept(s.intents, t.intents) && Kept(s.consumed, t.consumed)
    && Kept(s.enrolled, t.enrolled) && PoliciesLater(s.policies, t.policies)
    && DevicesLater(s.devices, t.devices)
    && RecordsLater(s, t)
  }

  ghost predicate Kept<K(!new), V>(a: map<K, V>, b: map<K, V>) {
    forall k :: k in a ==> k in b && b[k] == a[k]
  }

  /** A torn policy is never replaced. */
  ghost predicate PoliciesLater(a: map<DeviceId, File<Actor>>, b: map<DeviceId, File<Actor>>) {
    forall d :: d in a ==> d in b && (a[d].Torn? ==> b[d].Torn?)
  }

  ghost predicate DevicesLater(a: map<DeviceId, File<Device>>, b: map<DeviceId, File<Device>>) {
    forall d :: d in a ==> d in b && DeviceLater(a[d], b[d])
  }

  ghost predicate RecordsLater(s: State, t: State) {
    && (forall d :: d in s.records && s.records[d].Torn? ==> d in t.records && t.records[d].Torn?)
    && forall d :: Recorded(s, d) && Committed(s.records[d].value) ==> RecordLater(s, t, d)
  }

  ghost predicate DeviceLater(a: File<Device>, b: File<Device>) {
    match a
    case Torn => b == Torn
    case Whole(x) => b == a || b == Whole(x.(active := false))
  }

  /** A committed record keeps its enrollment and actor; it only ever moves on to approved. */
  ghost predicate RecordLater(s: State, t: State, d: DeviceId)
    requires Recorded(s, d)
  {
    Recorded(t, d) && (t.records[d] == s.records[d] || t.records[d].value == s.records[d].value.(status := Approved))
  }

  lemma {:induction false} EveryStateIsSound(h: seq<State>, i: nat)
    requires History(h) && i < |h|
    ensures Inv(h[i])
  {
    hide Inv, Effect, Enabled;
    if i == 0 {
      assert Inv(EMPTY) by { EmptyIsSound(); }
    } else {
      EveryStateIsSound(h, i - 1);
      assert Next(h[i - 1], h[i - 1 + 1]);
      var w, torn :| Enabled(h[i - 1], w) && (torn ==> InPlace(w)) && h[i] == Effect(h[i - 1], w, torn);
      WriteKeeps(h[i - 1], w, torn);
    }
  }

  lemma EmptyIsSound()
    ensures Inv(EMPTY)
  {
  }

  lemma WriteUndoesNothing(s: State, w: Write, torn: bool)
    requires (forall d :: d in s.enrolled ==> d in s.devices) && Enabled(s, w) && (torn ==> InPlace(w))
    ensures Later(s, Effect(s, w, torn))
  {
    hide RecordsLater, DevicesLater;
    WriteUndoesNoDevice(s, w, torn);
    WriteUndoesNoRecord(s, w, torn);
  }

  lemma WriteUndoesNoDevice(s: State, w: Write, torn: bool)
    requires Enabled(s, w) && (torn ==> InPlace(w))
    ensures DevicesLater(s.devices, Effect(s, w, torn).devices)
  {
  }

  lemma WriteUndoesNoRecord(s: State, w: Write, torn: bool)
    requires Enabled(s, w) && (torn ==> InPlace(w))
    ensures RecordsLater(s, Effect(s, w, torn))
  {
  }

  lemma EnrolledHaveDevices(s: State)
    requires Inv(s)
    ensures forall d :: d in s.enrolled ==> d in s.devices
  {
    assert forall d :: d in s.enrolled ==> EnrolledOk(s, d);
  }

  lemma LaterReflexive(s: State)
    ensures Later(s, s)
  {
  }

  lemma LaterTransitive(s: State, t: State, u: State)
    requires Later(s, t) && Later(t, u)
    ensures Later(s, u)
  {
    forall d | d in s.devices ensures d in u.devices && DeviceLater(s.devices[d], u.devices[d]) {
      assert DeviceLater(s.devices[d], t.devices[d]) && DeviceLater(t.devices[d], u.devices[d]);
    }
    forall d | Recorded(s, d) && Committed(s.records[d].value) ensures RecordLater(s, u, d) {
      assert RecordLater(s, t, d) && RecordLater(t, u, d);
    }
  }

  lemma {:induction false} NothingIsUndone(h: seq<State>, i: nat, k: nat)
    requires History(h) && i <= k < |h|
    ensures Later(h[i], h[k])
    decreases k
  {
    hide Inv, Effect, Enabled, Later;
    if i < k {
      NothingIsUndone(h, i, k - 1);
      assert Next(h[k - 1], h[k - 1 + 1]);
      var w, torn :| Enabled(h[k - 1], w) && (torn ==> InPlace(w)) && h[k] == Effect(h[k - 1], w, torn);
      EveryStateIsSound(h, k - 1);
      EnrolledHaveDevices(h[k - 1]);
      WriteUndoesNothing(h[k - 1], w, torn);
      LaterTransitive(h[i], h[k - 1], h[k]);
    } else {
      LaterReflexive(h[i]);
    }
  }

  /** An enrollment is never committed to two actors, however long ago the other was recorded. */
  lemma OneActorPerEnrollment(h: seq<State>, i: nat, k: nat, c: DeviceId, d: DeviceId, a: Actor, b: Actor)
    requires History(h) && i <= k < |h| && CommittedTo(h[i], c, a) && CommittedTo(h[k], d, b)
    requires h[i].records[c].value.target.id == h[k].records[d].value.target.id
    ensures c == d && a == b && h[i].records[c].value.target == h[k].records[d].value.target
  {
    EveryStateIsSound(h, k);
    NothingIsUndone(h, i, k);
    assert RecordLater(h[i], h[k], c);
  }

  /** Approving never becomes rejected, pending or forgotten. */
  lemma ApprovingIsFinal(h: seq<State>, i: nat, k: nat, d: DeviceId, a: Actor)
    requires History(h) && i <= k < |h| && CommittedTo(h[i], d, a)
    ensures CommittedTo(h[k], d, a) && h[k].records[d].value.target == h[i].records[d].value.target
    ensures h[i].records[d].value.status == Approved ==> h[k].records[d].value.status == Approved
  {
    NothingIsUndone(h, i, k);
    assert RecordLater(h[i], h[k], d);
  }

  /** An enrolled device leads back through its consumed evidence and its record to an intent, all in agreement. */
  lemma EvidenceChain(h: seq<State>, i: nat, d: DeviceId)
    requires History(h) && i < |h| && d in h[i].enrolled
    ensures Recorded(h[i], d) && h[i].records[d].value.actor.Some?
    ensures var s := h[i];
            var e := s.records[d].value;
            var actor, target, id := e.actor.value, e.target, e.target.id;
            && e.status in {Approving, Approved} && target.proposal.device == d && id == s.enrolled[d]
            && id in s.consumed && s.consumed[id] == Whole(Evidence(actor, d, target, None))
            && id in s.intents && s.intents[id] == Whole(Evidence(actor, d, target, Some(target.expires)))
            && d in s.devices
            && (s.devices[d].Whole? ==>
                  s.devices[d].value.owner == actor && s.devices[d].value.credential == target.proposal.credential)
  {
    EveryStateIsSound(h, i);
    assert EnrolledOk(h[i], d) && RecordOk(h[i], d);
  }

  /** Consumed evidence, even torn, means a committed record and an intent for the same enrollment. */
  lemma ConsumedMeansCommitted(h: seq<State>, i: nat, id: EnrollmentId) returns (d: DeviceId)
    requires History(h) && i < |h| && id in h[i].consumed
    ensures Recorded(h[i], d) && h[i].records[d].value.target.id == id && Committed(h[i].records[d].value)
    ensures h[i].records[d].value.actor.Some?
         && Holds(h[i].intents, id, IntentOf(h[i].records[d].value.target, h[i].records[d].value.actor.value))
    ensures h[i].consumed[id].Whole? ==> Used(h[i], d, h[i].records[d].value.actor.value)
  {
    var s := h[i];
    EveryStateIsSound(h, i);
    assert ConsumedOk(s, id);
    d :| Recorded(s, d) && s.records[d].value.target.id == id && Committed(s.records[d].value)
         && s.records[d].value.actor.Some?
         && (s.consumed[id] == Torn || Used(s, d, s.records[d].value.actor.value));
    assert RecordOk(s, d);
  }
}
