/** The pairing calls as they run over the files, one durable write at a time. */
module PairingStore {
  import opened Basics
  import opened Pairing
  import opened PairingApproval

  /** A call answers, refuses, or is cut short by the death of the process. */
  datatype Reply<+T> = Done(value: T) | Denied(why: Problem) | Died

  function Pruned(s: State): State {
    s.(records := map d | d in s.records && !(s.records[d].Whole? && Stale(s.records[d].value, s.clock)) :: s.records[d])
  }

  /** Only stale records are gone. */
  ghost predicate PartlyPruned(s: State, t: State) {
    && t == s.(records := t.records)
    && (forall d :: d in t.records ==> d in s.records && t.records[d] == s.records[d])
    && (forall d :: d in Pruned(s).records ==> d in t.records)
  }

  /** What is left outside `todo` is not stale. */
  ghost predicate PrunedBut(s: State, t: State, todo: set<DeviceId>) {
    forall d :: d in t.records && d !in todo ==> d in Pruned(s).records
  }

  lemma NothingPruned(s: State)
    ensures PartlyPruned(s, s) && PrunedBut(s, s, s.records.Keys)
  {
  }

  lemma PruneOne(s: State, t: State, todo: set<DeviceId>, d: DeviceId)
    requires PartlyPruned(s, t) && PrunedBut(s, t, todo) && d in todo && todo <= t.records.Keys
    ensures if t.records[d].Whole? && Stale(t.records[d].value, t.clock)
            then Enabled(t, Unlink(d)) && PartlyPruned(s, t.(records := t.records - {d}))
              && PrunedBut(s, t.(records := t.records - {d}), todo - {d})
            else PrunedBut(s, t, todo - {d})
  {
  }

  lemma AllPruned(s: State, t: State)
    requires PartlyPruned(s, t) && PrunedBut(s, t, {})
    ensures t == Pruned(s)
  {
  }

  ghost predicate Names(s: State, d: DeviceId, id: EnrollmentId) {
    Recorded(s, d) && s.records[d].value.target.id == id
  }

  /** The checks of `decide` on the record it finds, before anything is written. */
  function Objection(e: Enrollment, actor: Actor, digest: Target, approve: bool, now: Time): Option<Problem> {
    if e.target != digest || e.target.expires <= now then Some(ExpiredOrChanged)
    else if e.actor.Some? && e.actor.value != actor then Some(ActorMismatch)
    else if e.status == Rejected || (!approve && e.status != Pending) then Some(AlreadyDecided)
    else None
  }

  /** What `decide` leaves and answers when nothing interrupts it; s has been pruned. */
  ghost function Decided(s: State, actor: Actor, id: EnrollmentId, digest: Target, approve: bool): (State, Option<Problem>)
    requires Inv(s)
  {
    if !exists d :: Names(s, d, id) then (s, Some(NotFound))
    else
      var d :| Names(s, d, id);
      var e := s.records[d].value;
      var objection := Objection(e, actor, digest, approve, s.clock);
      if objection.Some? then (s, objection)
      else if approve then Approve(s, actor, d)
      else (s.(records := s.records[d := Whole(e.(status := Rejected, actor := Some(actor)))]), None)
  }

  lemma OneName(s: State, d: DeviceId, id: EnrollmentId)
    requires Inv(s) && Names(s, d, id)
    ensures forall c :: Names(s, c, id) ==> c == d
  {
  }

  lemma DecidedOn(s: State, d: DeviceId, actor: Actor, id: EnrollmentId, digest: Target, approve: bool)
    requires Inv(s) && Names(s, d, id)
    ensures var e := s.records[d].value;
            var objection := Objection(e, actor, digest, approve, s.clock);
            var decided := Decided(s, actor, id, digest, approve);
            if objection.Some? then decided == (s, objection)
            else if approve then decided == Approve(s, actor, d)
            else decided == (s.(records := s.records[d := Whole(e.(status := Rejected, actor := Some(actor)))]), None)
  {
    hide Inv, Approve, Objection;
    OneName(s, d, id);
  }

  /** An approval not finished within its ten minutes never is: no decision and no pruning touches it again. */
  lemma UnfinishedAtExpiryIsStuck(h: seq<State>, i: nat, k: nat, d: DeviceId, a: Actor, actor: Actor, digest: Target, approve: bool)
    requires History(h) && i <= k < |h| && CommittedTo(h[i], d, a)
    requires h[i].records[d].value.target.expires <= h[k].clock
    ensures Inv(h[k]) && Recorded(h[k], d) && d in Pruned(h[k]).records
    ensures Decided(h[k], actor, h[i].records[d].value.target.id, digest, approve) == (h[k], Some(ExpiredOrChanged))
  {
    hide Inv, History, Approve, Decided;
    EveryStateIsSound(h, k);
    ApprovingIsFinal(h, i, k, d, a);
    DecidedOn(h[k], d, actor, h[i].records[d].value.target.id, digest, approve);
  }

  // ---------- Following an approval step by step ----------

  /** t is on the way of the approval of s. */
  ghost predicate Onward(s: State, t: State, actor: Actor, d: DeviceId)
    requires Inv(s) && Recorded(s, d)
  {
    && Inv(t) && Recorded(t, d)
    && Approve(t, actor, d) == Approve(s, actor, d)
    && forall u :: CutShort(t, actor, d, u) ==> CutShort(s, actor, d, u)
  }

  lemma OneStepOnward(s: State, t: State, actor: Actor, d: DeviceId)
    requires Inv(s) && Recorded(s, d) && Onward(s, t, actor, d) && NextMove(t, actor, d).Make?
    ensures Enabled(t, NextMove(t, actor, d).w)
    ensures var w := NextMove(t, actor, d).w;
            && Onward(s, Effect(t, w, false), actor, d)
            && CutShort(s, actor, d, t)
            && (InPlace(w) ==> CutShort(s, actor, d, Effect(t, w, true)))
  {
    hide Inv, NextMove, Effect, Enabled;
    MoveIsEnabled(t, actor, d);
    assert CutShort(t, actor, d, t);
    var w := NextMove(t, actor, d).w;
    if InPlace(w) {
      assert CutShort(t, actor, d, Effect(t, w, true));
    }
    assert forall u :: CutShort(Effect(t, w, false), actor, d, u) ==> CutShort(t, actor, d, u);
  }

  lemma StopHere(s: State, t: State, actor: Actor, d: DeviceId)
    requires Inv(s) && Recorded(s, d) && Onward(s, t, actor, d) && !NextMove(t, actor, d).Make?
    ensures Approve(s, actor, d)
         == (t, if NextMove(t, actor, d).Refuse? then Some(NextMove(t, actor, d).why) else None)
  {
    hide Inv, NextMove;
  }

  lemma ApprovedStops(s: State, actor: Actor, d: DeviceId)
    requires Recorded(s, d) && s.records[d].value.status == Approved && s.records[d].value.actor == Some(actor)
    ensures var e := s.records[d].value;
            var problem := EvidenceProblem(s.consumed, e.target.id, UseOf(e.target, actor));
            NextMove(s, actor, d) == if problem.Some? then Refuse(problem.value) else Finish
  {
  }

  lemma LastMove(s: State, actor: Actor, d: DeviceId)
    requires CommittedTo(s, d, actor) && Enabled(s, MarkApproved(d))
    ensures var t := Effect(s, MarkApproved(d), false);
            && t == s.(records := s.records[d := Whole(s.records[d].value.(status := Approved))])
            && Recorded(t, d) && NextMove(t, actor, d) == Finish
  {
  }

  lemma Extends1(h: seq<State>, w: Write, torn: bool)
    requires History(h) && Enabled(h[|h| - 1], w) && (torn ==> InPlace(w))
    ensures History(h + [Effect(h[|h| - 1], w, torn)])
  {
    hide Effect, Enabled;
    var longer := h + [Effect(h[|h| - 1], w, torn)];
    forall i | 0 <= i < |longer| - 1 ensures Next(longer[i], longer[i + 1]) {
      if i < |h| - 1 {
        assert Next(h[i], h[i + 1]);
      }
    }
  }

  class SystemPairings {
    var records: map<DeviceId, File<Enrollment>>
    var intents: map<EnrollmentId, File<Evidence>>
    var consumed: map<EnrollmentId, File<Evidence>>
    var devices: map<DeviceId, File<Device>>
    var policies: map<DeviceId, File<Actor>>
    // The actors for whom some other record that discovery reads is unreadable.
    var blinded: set<Actor>
    // Durable writes that still succeed; the process dies in the next one, tearing a file it creates or not.
    var fuel: nat
    var tears: bool
    var clock: Time
    ghost var ids: set<EnrollmentId>
    ghost var enrolled: map<DeviceId, EnrollmentId>
    ghost var history: seq<State>

    ghost function Now(): State
      reads this
    {
      State(records, intents, consumed, devices, policies, blinded, clock, ids, enrolled)
    }

    ghost predicate Valid()
      reads this
    {
      History(history) && history[|history| - 1] == Now()
    }

    constructor Open(fuel: nat, tears: bool)
      ensures Valid() && Now() == EMPTY && history == [EMPTY]
      ensures this.fuel == fuel
    {
      records, intents, consumed, devices, policies, blinded, clock := map[], map[], map[], map[], map[], {}, 0;
      this.fuel, this.tears := fuel, tears;
      ids, enrolled, history := {}, map[], [EMPTY];
    }

    /** A restart finds the files as the last writes left them. */
    constructor Restart(died: SystemPairings, fuel: nat, tears: bool)
      requires died.Valid()
      ensures Valid() && Now() == died.Now() && history == died.history
      ensures this.fuel == fuel
    {
      records, intents, consumed, devices, policies, blinded, clock :=
        died.records, died.intents, died.consumed, died.devices, died.policies, died.blinded, died.clock;
      this.fuel, this.tears := fuel, tears;
      ids, enrolled, history := died.ids, died.enrolled, died.history;
    }

    lemma Sound()
      requires Valid()
      ensures Inv(Now())
    {
      EveryStateIsSound(history, |history| - 1);
    }

    // ---------- Durable writes ----------

    method Observe(now: Time)
      requires Valid() && clock <= now
      modifies this`clock, this`history
      ensures Valid() && Now() == old(Now()).(clock := now) && old(history) <= history
    {
      Extends1(history, Tick(now), false);
      clock := now;
      history := history + [Now()];
    }

    /** Replace a record: either the old or the new one survives a crash. */
    method Replace(d: DeviceId, e: Enrollment, ghost w: Write) returns (ok: bool)
      requires Valid() && Enabled(Now(), w) && Effect(Now(), w, false) == Now().(records := records[d := Whole(e)])
      modifies this`records, this`fuel, this`history
      ensures !ok ==> fuel == 0
      ensures Valid() && old(history) <= history
      ensures Now() == if ok then Effect(old(Now()), w, false) else old(Now())
    {
      if fuel == 0 { return false; }
      fuel := fuel - 1;
      Extends1(history, w, false);
      records := records[d := Whole(e)];
      history := history + [Now()];
      return true;
    }

    method Remove(d: DeviceId) returns (ok: bool)
      requires Valid() && Enabled(Now(), Unlink(d))
      modifies this`records, this`fuel, this`history
      ensures !ok ==> fuel == 0
      ensures Valid() && old(history) <= history
      ensures Now() == if ok then old(Now()).(records := old(records) - {d}) else old(Now())
    {
      if fuel == 0 { return false; }
      fuel := fuel - 1;
      Extends1(history, Unlink(d), false);
      records := records - {d};
      history := history + [Now()];
      return true;
    }

    method CreateRecord(d: DeviceId, target: Target) returns (ok: bool)
      requires Valid() && Enabled(Now(), AddRecord(d, target))
      modifies this`records, this`fuel, this`history, this`ids
      ensures !ok ==> fuel == 0
      ensures Valid() && old(history) <= history
      ensures if ok then Now() == Effect(old(Now()), AddRecord(d, target), false)
              else Now() == old(Now()) || Now() == Effect(old(Now()), AddRecord(d, target), true)
    {
      if fuel == 0 && !tears { return false; }
      ok := fuel > 0;
      if ok { fuel := fuel - 1; }
      Extends1(history, AddRecord(d, target), !ok);
      records := records[d := Put(!ok, Enrollment(target, Pending, None))];
      ids := ids + {target.id};
      history := history + [Now()];
    }

    method CreateIntent(d: DeviceId, actor: Actor) returns (ok: bool)
      requires Valid() && Enabled(Now(), PutIntent(d, actor))
      modifies this`intents, this`fuel, this`history
      ensures !ok ==> fuel == 0
      ensures Valid() && old(history) <= history
      ensures if ok then Now() == Effect(old(Now()), PutIntent(d, actor), false)
              else Now() == old(Now()) || Now() == Effect(old(Now()), PutIntent(d, actor), true)
    {
      if fuel == 0 && !tears { return false; }
      ok := fuel > 0;
      if ok { fuel := fuel - 1; }
      Extends1(history, PutIntent(d, actor), !ok);
      var target := records[d].value.target;
      intents := intents[target.id := Put(!ok, IntentOf(target, actor))];
      history := history + [Now()];
    }

    method CreateUse(d: DeviceId, actor: Actor) returns (ok: bool)
      requires Valid() && Enabled(Now(), PutUse(d, actor))
      modifies this`consumed, this`fuel, this`history
      ensures !ok ==> fuel == 0
      ensures Valid() && old(history) <= history
      ensures if ok then Now() == Effect(old(Now()), PutUse(d, actor), false)
              else Now() == old(Now()) || Now() == Effect(old(Now()), PutUse(d, actor), true)
    {
      if fuel == 0 && !tears { return false; }
      ok := fuel > 0;
      if ok { fuel := fuel - 1; }
      Extends1(history, PutUse(d, actor), !ok);
      var target := records[d].value.target;
      consumed := consumed[target.id := Put(!ok, UseOf(target, actor))];
      history := history + [Now()];
    }

    method CreateDevice(d: DeviceId, device: Device, ghost w: Write) returns (ok: bool)
      requires Valid() && Enabled(Now(), w) && (w == PairDevice(d, device) || (w.PutDevice? && w.d == d))
      requires w.PutDevice? ==> device == Device(w.actor, records[d].value.target.proposal.credential, true)
      modifies this`devices, this`fuel, this`history, this`enrolled
      ensures !ok ==> fuel == 0
      ensures Valid() && old(history) <= history
      ensures if ok then Now() == Effect(old(Now()), w, false)
              else Now() == old(Now()) || Now() == Effect(old(Now()), w, true)
    {
      if fuel == 0 && !tears { return false; }
      ok := fuel > 0;
      if ok { fuel := fuel - 1; }
      Extends1(history, w, !ok);
      ghost var t := Effect(Now(), w, !ok);
      devices := devices[d := Put(!ok, device)];
      enrolled := t.enrolled;
      history := history + [Now()];
    }

    method CreatePolicy(d: DeviceId, actor: Actor) returns (ok: bool)
      requires Valid() && Enabled(Now(), PutPolicy(d, actor))
      modifies this`policies, this`fuel, this`history
      ensures !ok ==> fuel == 0
      ensures Valid() && old(history) <= history
      ensures if ok then Now() == Effect(old(Now()), PutPolicy(d, actor), false)
              else Now() == old(Now()) || Now() == Effect(old(Now()), PutPolicy(d, actor), true)
    {
      if fuel == 0 && !tears { return false; }
      ok := fuel > 0;
      if ok { fuel := fuel - 1; }
      Extends1(history, PutPolicy(d, actor), !ok);
      policies := policies[d := Put(!ok, actor)];
      history := history + [Now()];
    }

    // ---------- records ----------

    /** Forget enrollments that were never approved, half an hour after they expired. */
    method Prune() returns (done: bool)
      requires Valid()
      modifies this`records, this`fuel, this`history
      ensures !done ==> fuel == 0
      ensures Valid() && old(history) <= history
      ensures PartlyPruned(old(Now()), Now()) && (done ==> Now() == Pruned(old(Now())))
    {
      hide History, Effect, Enabled, PartlyPruned, Pruned, Stale;
      ghost var s := Now();
      var todo := records.Keys;
      NothingPruned(s);
      while todo != {}
        invariant Valid() && old(history) <= history && todo <= records.Keys
        invariant PartlyPruned(s, Now()) && PrunedBut(s, Now(), todo)
        decreases todo
      {
        var d :| d in todo;
        PruneOne(s, Now(), todo, d);
        if records[d].Whole? && Stale(records[d].value, clock) {
          done := Remove(d);
          if !done { return; }
        }
        todo := todo - {d};
      }
      AllPruned(s, Now());
      done := true;
    }

    // ---------- start ----------

    /** Repeating a proposal changes nothing; a device never has two enrollments at once. */
    method Start(proposal: Proposal, id: EnrollmentId, now: Time) returns (reply: Reply<Target>)
      requires Valid() && clock <= now && id !in ids
      modifies this`records, this`fuel, this`history, this`clock, this`ids
      ensures reply.Died? ==> fuel == 0
      ensures Valid() && old(history) <= history
      ensures var s := Pruned(old(Now()).(clock := now));
              match reply
              case Died => true
              case Denied(why) =>
                || (why == StorageFailure && !Readable(old(records)) && Now() == old(Now()).(clock := now))
                || (Now() == s && why == TargetChanged && Recorded(s, proposal.device)
                    && s.records[proposal.device].value.target.proposal != proposal)
                || (Now() == s && why == CodeCollision && proposal.device !in s.records
                    && exists d :: Recorded(s, d) && s.records[d].value.target.proposal.code == proposal.code
                                && now < s.records[d].value.target.expires)
              case Done(target) =>
                && target.proposal == proposal && Recorded(Now(), proposal.device)
                && Now().records[proposal.device].value.target == target
                && (proposal.device in s.records ==> Now() == s)
                && (proposal.device !in s.records ==>
                      && target == Target(proposal, id, now, now + LIFETIME)
                      && Now() == Effect(s, AddRecord(proposal.device, target), false))
    {
      hide Inv, History;
      Observe(now);
      if !Readable(records) { return Denied(StorageFailure); }
      var done := Prune();
      if !done { return Died; }
      var d := proposal.device;
      if d in records {
        if records[d].value.target.proposal != proposal { return Denied(TargetChanged); }
        return Done(records[d].value.target);
      }
      if exists c :: c in records && records[c].value.target.proposal.code == proposal.code
                  && now < records[c].value.target.expires
      {
        return Denied(CodeCollision);
      }
      var target := Target(proposal, id, now, now + LIFETIME);
      done := CreateRecord(d, target);
      if !done { return Died; }
      return Done(target);
    }

    // ---------- decide ----------

    /** The enrollment's device, created once; one that is already there must be the actor's own and active. */
    method AcceptEnrollment(d: DeviceId, actor: Actor, ghost s: State) returns (reply: Reply<()>)
      requires Valid() && Inv(s) && Recorded(s, d) && Onward(s, Now(), actor, d)
      requires Recorded(Now(), d) && CommittedTo(Now(), d, actor) && records[d].value.status == Approving
      requires NextMove(Now(), actor, d) == DeviceMove(Now(), actor, d)
      modifies this`devices, this`fuel, this`history, this`enrolled
      ensures reply.Died? ==> fuel == 0
      ensures Valid() && old(history) <= history
      ensures match reply
              case Died => CutShort(s, actor, d, Now())
              case Denied(why) => Approve(s, actor, d) == (Now(), Some(why))
              case Done(_) =>
                && Onward(s, Now(), actor, d) && NextMove(Now(), actor, d) == DeviceMove(Now(), actor, d)
                && d in devices && devices[d] == Whole(Device(actor, records[d].value.target.proposal.credential, true))
    {
      hide Inv, History, Full, Approve, CutShort, Onward;
      var credential := records[d].value.target.proposal.credential;
      if d in devices {
        var problem := DeviceProblem(devices[d], actor, credential);
        if problem.Some? { StopHere(s, Now(), actor, d); return Denied(problem.value); }
        return Done(());
      }
      if !Readable(devices) { StopHere(s, Now(), actor, d); return Denied(StorageFailure); }
      if Full(devices, actor) { StopHere(s, Now(), actor, d); return Denied(DeviceLimit); }
      OneStepOnward(s, Now(), actor, d);
      var ok := CreateDevice(d, Device(actor, credential, true), PutDevice(d, actor));
      if !ok { return Died; }
      return Done(());
    }

    /** The intent is on disk before the record names its actor. */
    method Commit(d: DeviceId, actor: Actor, ghost s: State) returns (reply: Reply<()>)
      requires Valid() && Inv(s) && Recorded(s, d) && Onward(s, Now(), actor, d)
      requires Recorded(Now(), d) && records[d].value.status == Pending && records[d].value.actor.None?
      modifies this`records, this`intents, this`fuel, this`history
      ensures reply.Died? ==> fuel == 0
      ensures Valid() && old(history) <= history
      ensures match reply
              case Died => CutShort(s, actor, d, Now())
              case Denied(why) => Approve(s, actor, d) == (Now(), Some(why))
              case Done(_) =>
                && Onward(s, Now(), actor, d) && CommittedTo(Now(), d, actor) && records[d].value.status == Approving
                && records[d].value.target == old(records)[d].value.target
    {
      hide Inv, History, Full, Approve, CutShort, Onward;
      var target := records[d].value.target;
      var ok;
      if !Readable(devices) { StopHere(s, Now(), actor, d); return Denied(StorageFailure); }
      if Full(devices, actor) { StopHere(s, Now(), actor, d); return Denied(DeviceLimit); }
      if target.id !in intents {
        OneStepOnward(s, Now(), actor, d);
        ok := CreateIntent(d, actor);
        if !ok { return Died; }
      } else {
        var problem := EvidenceProblem(intents, target.id, IntentOf(target, actor));
        if problem.Some? { StopHere(s, Now(), actor, d); return Denied(problem.value); }
      }
      OneStepOnward(s, Now(), actor, d);
      ok := Replace(d, records[d].value.(status := Approving, actor := Some(actor)), MarkApproving(d, actor));
      if !ok { return Died; }
      return Done(());
    }

    /** The single use of the intent is on disk before anything is enrolled. */
    method Consume(d: DeviceId, actor: Actor, ghost s: State) returns (reply: Reply<()>)
      requires Valid() && Inv(s) && Recorded(s, d) && Onward(s, Now(), actor, d)
      requires CommittedTo(Now(), d, actor) && records[d].value.status == Approving
      modifies this`consumed, this`fuel, this`history
      ensures reply.Died? ==> fuel == 0
      ensures Valid() && old(history) <= history
      ensures match reply
              case Died => CutShort(s, actor, d, Now())
              case Denied(why) => Approve(s, actor, d) == (Now(), Some(why))
              case Done(_) =>
                Onward(s, Now(), actor, d) && NextMove(Now(), actor, d) == DeviceMove(Now(), actor, d)
    {
      hide Inv, History, Full, Approve, CutShort, Onward, DeviceMove;
      var target := records[d].value.target;
      var problem := EvidenceProblem(intents, target.id, IntentOf(target, actor));
      if problem.Some? { StopHere(s, Now(), actor, d); return Denied(problem.value); }
      if target.id in consumed {
        problem := EvidenceProblem(consumed, target.id, UseOf(target, actor));
        if problem.Some? { StopHere(s, Now(), actor, d); return Denied(problem.value); }
      } else {
        OneStepOnward(s, Now(), actor, d);
        var ok := CreateUse(d, actor);
        if !ok { return Died; }
      }
      return Done(());
    }

    /** File activity asked for in the proposal is switched on unless the device already has a policy. */
    method Configure(d: DeviceId, actor: Actor, ghost s: State) returns (reply: Reply<()>)
      requires Valid() && Inv(s) && Recorded(s, d) && Onward(s, Now(), actor, d)
      requires CommittedTo(Now(), d, actor) && records[d].value.status == Approving
      requires NextMove(Now(), actor, d) == DeviceMove(Now(), actor, d)
      requires d in devices && devices[d] == Whole(Device(actor, records[d].value.target.proposal.credential, true))
      modifies this`policies, this`fuel, this`history
      ensures reply.Died? ==> fuel == 0
      ensures Valid() && old(history) <= history
      ensures match reply
              case Died => CutShort(s, actor, d, Now())
              case Denied(why) => Approve(s, actor, d) == (Now(), Some(why))
              case Done(_) => Onward(s, Now(), actor, d) && NextMove(Now(), actor, d) == Make(MarkApproved(d))
    {
      hide Inv, History, Full, Approve, CutShort, Onward;
      if records[d].value.target.proposal.fileActivity {
        if !Readable(devices) || !Discoverable(policies, devices, blinded, actor) {
          StopHere(s, Now(), actor, d);
          return Denied(StorageFailure);
        }
        if d !in policies {
          OneStepOnward(s, Now(), actor, d);
          var ok := CreatePolicy(d, actor);
          if !ok { return Died; }
        }
      }
      return Done(());
    }

    /** The approval of a pending or approving record: each write depends on the ones before it. */
    method ApproveRecord(d: DeviceId, actor: Actor) returns (reply: Reply<()>)
      requires Valid() && Inv(Now()) && Recorded(Now(), d)
      requires records[d].value.status == Pending || CommittedTo(Now(), d, actor)
      requires records[d].value.status == Pending ==> records[d].value.actor.None?
      modifies this`records, this`intents, this`consumed, this`devices, this`policies, this`fuel, this`history, this`enrolled
      ensures reply.Died? ==> fuel == 0
      ensures Valid() && old(history) <= history
      ensures match reply
              case Died => CutShort(old(Now()), actor, d, Now())
              case Denied(why) => Approve(old(Now()), actor, d) == (Now(), Some(why))
              case Done(_) => Approve(old(Now()), actor, d) == (Now(), None)
    {
      hide Inv, History, Full, Approve, CutShort, Onward, DeviceMove, NextMove, Enabled, Effect;
      ghost var s := Now();
      OnwardAtFirst(s, actor, d);
      if records[d].value.status == Approved {
        var problem := EvidenceProblem(consumed, records[d].value.target.id, UseOf(records[d].value.target, actor));
        ApprovedStops(s, actor, d);
        StopHere(s, s, actor, d);
        return if problem.Some? then Denied(problem.value) else Done(());
      }
      if records[d].value.status == Pending {
        reply := Commit(d, actor, s);
        if !reply.Done? { return reply; }
      }
      reply := Consume(d, actor, s);
      if !reply.Done? { return reply; }
      reply := AcceptEnrollment(d, actor, s);
      if !reply.Done? { return reply; }
      reply := Configure(d, actor, s);
      if !reply.Done? { return reply; }
      OneStepOnward(s, Now(), actor, d);
      LastMove(Now(), actor, d);
      var ok := Replace(d, records[d].value.(status := Approved), MarkApproved(d));
      if !ok { return Died; }
      StopHere(s, Now(), actor, d);
      return Done(());
    }

    /** A decision on the enrollment named by its id: only for the digest shown, and only before it expires. */
    method Decide(actor: Actor, id: EnrollmentId, digest: Target, approve: bool, permitted: bool, now: Time)
      returns (reply: Reply<()>)
      requires Valid() && clock <= now
      modifies this`records, this`intents, this`consumed, this`devices, this`policies, this`fuel, this`history, this`enrolled,
               this`clock
      ensures reply.Died? ==> fuel == 0
      ensures Valid() && old(history) <= history
      ensures var s := old(Now()).(clock := now);
              var p := Pruned(s);
              match reply
              case Died => PartlyPruned(s, Now()) || (approve && exists d :: Names(p, d, id) && Inv(p) && CutShort(p, actor, d, Now()))
              case Denied(why) =>
                || (why == AccessDenied && !permitted && Now() == s)
                || (why == StorageFailure && !Readable(s.records) && Now() == s)
                || (Inv(p) && Decided(p, actor, id, digest, approve) == (Now(), Some(why)))
              case Done(_) => permitted && Inv(p) && Decided(p, actor, id, digest, approve) == (Now(), None)
    {
      hide Inv, History, Approve, CutShort, Pruned;
      Observe(now);
      if !permitted { return Denied(AccessDenied); }
      if !Readable(records) { return Denied(StorageFailure); }
      var done := Prune();
      if !done { return Died; }
      Sound();
      if !exists d :: d in records && records[d].value.target.id == id { return Denied(NotFound); }
      var d :| d in records && records[d].value.target.id == id;
      DecidedOn(Now(), d, actor, id, digest, approve);
      RecordIsOk(Now(), d);
      var e := records[d].value;
      var objection := Objection(e, actor, digest, approve, now);
      if objection.Some? { return Denied(objection.value); }
      if approve {
        reply := ApproveRecord(d, actor);
        return reply;
      }
      done := Replace(d, e.(status := Rejected, actor := Some(actor)), MarkRejected(d, actor));
      if !done { return Died; }
      return Done(());
    }

    // ---------- Devices paired directly, and revoked ----------

    method Pair(actor: Actor, d: DeviceId, credential: Digest, permitted: bool) returns (reply: Reply<()>)
      requires Valid() && d !in devices
      modifies this`devices, this`fuel, this`history, this`enrolled
      ensures reply.Died? ==> fuel == 0
      ensures Valid() && old(history) <= history
      ensures var device := Device(actor, credential, true);
              match reply
              case Died => Now() == old(Now()) || Now() == old(Now()).(devices := old(devices)[d := Torn])
              case Denied(why) =>
                && Now() == old(Now())
                && why == (if !permitted then AccessDenied else if !Readable(devices) then StorageFailure else DeviceLimit)
                && (permitted && Readable(devices) ==> Full(devices, actor))
              case Done(_) =>
                && permitted && Readable(old(devices)) && !Full(old(devices), actor)
                && Now() == old(Now()).(devices := old(devices)[d := Whole(device)])
    {
      hide Inv, History;
      if !permitted { return Denied(AccessDenied); }
      if !Readable(devices) { return Denied(StorageFailure); }
      if Full(devices, actor) { return Denied(DeviceLimit); }
      var device := Device(actor, credential, true);
      var ok := CreateDevice(d, device, PairDevice(d, device));
      if !ok { return Died; }
      return Done(());
    }

    method Revoke(actor: Actor, d: DeviceId, permitted: bool, administrator: bool) returns (reply: Reply<()>)
      requires Valid()
      modifies this`devices, this`fuel, this`history
      ensures reply.Died? ==> fuel == 0
      ensures Valid() && old(history) <= history
      ensures var found := permitted && d in old(devices);
              var own := found && old(devices)[d].Whole? && (old(devices)[d].value.owner == actor || administrator);
              match reply
              case Done(_) =>
                own && Now() == old(Now()).(devices := old(devices)[d := Whole(old(devices)[d].value.(active := false))])
              case Denied(why) =>
                && !own && Now() == old(Now())
                && why == if permitted && !found then NotFound else if found && old(devices)[d].Torn? then StorageFailure
                          else AccessDenied
              case Died => own && Now() == old(Now())
    {
      hide Inv, History;
      if !permitted { return Denied(AccessDenied); }
      if d !in devices { return Denied(NotFound); }
      if devices[d].Torn? { return Denied(StorageFailure); }
      var device := devices[d].value;
      if device.owner != actor && !administrator { return Denied(AccessDenied); }
      if fuel == 0 { return Died; }
      fuel := fuel - 1;
      Extends1(history, RevokeDevice(d), false);
      devices := devices[d := Whole(device.(active := false))];
      history := history + [Now()];
      return Done(());
    }
  }

  lemma OnwardAtFirst(s: State, actor: Actor, d: DeviceId)
    requires Inv(s) && Recorded(s, d)
    ensures Onward(s, s, actor, d)
  {
  }
}
