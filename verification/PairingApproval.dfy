/** What approving an enrollment does from any state a crash can leave behind. */
module PairingApproval {
  import opened Basics
  import opened Pairing

  datatype Problem =
    | AccessDenied | NotFound | ExpiredOrChanged | ActorMismatch | AlreadyDecided | DeviceLimit
    | AuditUnavailable | AuditMismatch | DeviceCollision | StorageFailure | TargetChanged | CodeCollision

  const DEVICES: nat := 10

  predicate Full(devices: map<DeviceId, File<Device>>, actor: Actor) {
    |set d | d in devices && devices[d].Whole? && devices[d].value.owner == actor && devices[d].value.active| >= DEVICES
  }

  function EvidenceProblem(files: map<EnrollmentId, File<Evidence>>, id: EnrollmentId, expected: Evidence): Option<Problem> {
    if id !in files || files[id].Torn? then Some(AuditUnavailable)
    else if files[id].value != expected then Some(AuditMismatch)
    else None
  }

  /** Why an existing device cannot be the one this enrollment creates. */
  function DeviceProblem(file: File<Device>, actor: Actor, credential: Digest): Option<Problem> {
    if file.Torn? then Some(StorageFailure)
    else if file.value != Device(actor, credential, true) then Some(DeviceCollision)
    else None
  }

  /** Discovery can show the actor its systems: it reads the policy of every one of them. */
  predicate Discoverable(policies: map<DeviceId, File<Actor>>, devices: map<DeviceId, File<Device>>, blinded: set<Actor>, actor: Actor) {
    actor !in blinded && forall p :: p in policies && Visible(devices, p, actor) ==> policies[p].Whole?
  }

  predicate Shown(s: State, actor: Actor) {
    Discoverable(s.policies, s.devices, s.blinded, actor)
  }

  datatype Move = Refuse(why: Problem) | Finish | Make(w: Write)

  /** The next thing an approval does, judged from the files alone. */
  function NextMove(s: State, actor: Actor, d: DeviceId): Move
    requires Recorded(s, d)
  {
    var e := s.records[d].value;
    var id, target := e.target.id, e.target;
    if e.actor.Some? && e.actor.value != actor then Refuse(ActorMismatch)
    else
      match e.status
      case Rejected => Refuse(AlreadyDecided)
      case Pending =>
        if !Readable(s.devices) then Refuse(StorageFailure)
        else if Full(s.devices, actor) then Refuse(DeviceLimit)
        else if id !in s.intents then Make(PutIntent(d, actor))
        else
          var problem := EvidenceProblem(s.intents, id, IntentOf(target, actor));
          if problem.Some? then Refuse(problem.value) else Make(MarkApproving(d, actor))
      case Approving =>
        var problem := EvidenceProblem(s.intents, id, IntentOf(target, actor));
        if problem.Some? then Refuse(problem.value)
        else if id !in s.consumed then Make(PutUse(d, actor))
        else
          var reused := EvidenceProblem(s.consumed, id, UseOf(target, actor));
          if reused.Some? then Refuse(reused.value) else DeviceMove(s, actor, d)
      case Approved =>
        var problem := EvidenceProblem(s.consumed, id, UseOf(target, actor));
        if problem.Some? then Refuse(problem.value) else Finish
  }

  function DeviceMove(s: State, actor: Actor, d: DeviceId): Move
    requires Recorded(s, d)
  {
    var target := s.records[d].value.target;
    if d !in s.devices then
      if !Readable(s.devices) then Refuse(StorageFailure)
      else if Full(s.devices, actor) then Refuse(DeviceLimit)
      else Make(PutDevice(d, actor))
    else
      var problem := DeviceProblem(s.devices[d], actor, target.proposal.credential);
      if problem.Some? then Refuse(problem.value)
      else if !target.proposal.fileActivity then Make(MarkApproved(d))
      else if !Readable(s.devices) || !Shown(s, actor) then Refuse(StorageFailure)
      else if d !in s.policies then Make(PutPolicy(d, actor))
      else Make(MarkApproved(d))
  }

  /** How many writes an approval still has to make. */
  function Remaining(s: State, d: DeviceId): nat
    requires Recorded(s, d)
  {
    var e := s.records[d].value;
    var later := (if e.target.id in s.consumed then 0 else 1) + (if d in s.devices then 0 else 1)
               + (if d in s.policies then 0 else 1);
    match e.status
    case Rejected => 0
    case Approved => 0
    case Approving => 1 + later
    case Pending => 2 + later + if e.target.id in s.intents then 0 else 1
  }

  lemma MoveIsEnabled(s: State, actor: Actor, d: DeviceId)
    requires Inv(s) && Recorded(s, d) && NextMove(s, actor, d).Make?
    ensures Enabled(s, NextMove(s, actor, d).w)
    ensures var t := Effect(s, NextMove(s, actor, d).w, false);
            && Inv(t) && Recorded(t, d) && t.records[d].value.target == s.records[d].value.target
            && Remaining(t, d) < Remaining(s, d)
  {
    hide ConsumedOk, EnrolledOk, IdsDistinct, Inv;
    MoveAllowed(s, actor, d);
    WriteKeeps(s, NextMove(s, actor, d).w, false);
  }

  lemma MoveAllowed(s: State, actor: Actor, d: DeviceId)
    requires Inv(s) && Recorded(s, d) && NextMove(s, actor, d).Make?
    ensures Enabled(s, NextMove(s, actor, d).w)
  {
    hide ConsumedOk, EnrolledOk, IdsDistinct;
    assert RecordOk(s, d);
  }

  /** An approval that nothing interrupts: the files it leaves and the problem that stopped it, if one did. */
  ghost function Approve(s: State, actor: Actor, d: DeviceId): (State, Option<Problem>)
    requires Inv(s) && Recorded(s, d)
    decreases Remaining(s, d)
  {
    match NextMove(s, actor, d)
    case Refuse(why) => (s, Some(why))
    case Finish => (s, None)
    case Make(w) =>
      MoveIsEnabled(s, actor, d);
      Approve(Effect(s, w, false), actor, d)
  }

  // ---------- When an approval succeeds, and what it leaves ----------

  /** Everything an approval still has to create is either absent or already what it would write. */
  predicate Clear(s: State, actor: Actor, d: DeviceId)
    requires Recorded(s, d)
  {
    var e := s.records[d].value;
    var target := e.target;
    && (e.actor.Some? ==> e.actor.value == actor)
    && match e.status
       case Rejected => false
       case Approved => true
       case Pending =>
         && Readable(s.devices) && !Full(s.devices, actor)
         && (target.id in s.intents ==> Holds(s.intents, target.id, IntentOf(target, actor)))
         && Placeable(s, actor, target)
       case Approving =>
         && (target.id in s.consumed ==> s.consumed[target.id].Whole?)
         && (d !in s.devices || target.proposal.fileActivity ==> Readable(s.devices))
         && (d !in s.devices ==> !Full(s.devices, actor))
         && Placeable(s, actor, target)
  }

  predicate Placeable(s: State, actor: Actor, target: Target) {
    var d := target.proposal.device;
    && (d in s.devices ==> s.devices[d] == Whole(Device(actor, target.proposal.credential, true)))
    && (target.proposal.fileActivity ==> Shown(s, actor) && (d in s.policies ==> s.policies[d].Whole?))
  }

  /** The approved enrollment: its record, both pieces of evidence, its device and, if asked for, its policy. */
  function Completed(s: State, actor: Actor, d: DeviceId): State
    requires Recorded(s, d)
  {
    var e := s.records[d].value;
    if e.status == Approved then s
    else
      var target := e.target;
      s.(records := s.records[d := Whole(Enrollment(target, Approved, Some(actor)))],
         intents := s.intents[target.id := Whole(IntentOf(target, actor))],
         consumed := s.consumed[target.id := Whole(UseOf(target, actor))],
         devices := s.devices[d := Whole(Device(actor, target.proposal.credential, true))],
         policies := if target.proposal.fileActivity && d !in s.policies then s.policies[d := Whole(actor)] else s.policies,
         enrolled := if d in s.devices then s.enrolled else s.enrolled[d := target.id])
  }

  /** An approval succeeds exactly when its way is clear, and then leaves exactly the completed enrollment. */
  lemma {:induction false} ApprovesIff(s: State, actor: Actor, d: DeviceId)
    requires Inv(s) && Recorded(s, d)
    ensures Approve(s, actor, d).1.None? <==> Clear(s, actor, d)
    ensures Clear(s, actor, d) ==> Approve(s, actor, d).0 == Completed(s, actor, d)
    decreases Remaining(s, d)
  {
    hide Inv, Clear, Completed, Effect, Full;
    var move := NextMove(s, actor, d);
    if move.Make? {
      MoveIsEnabled(s, actor, d);
      ApprovesIff(Effect(s, move.w, false), actor, d);
      MoveKeepsGoal(s, actor, d);
    } else {
      StopsIff(s, actor, d);
    }
  }

  lemma StopsIff(s: State, actor: Actor, d: DeviceId)
    requires Inv(s) && Recorded(s, d) && !NextMove(s, actor, d).Make?
    ensures NextMove(s, actor, d).Finish? <==> Clear(s, actor, d)
    ensures Clear(s, actor, d) ==> Completed(s, actor, d) == s
  {
    hide EnrolledOk, IdsDistinct, Full;
    assert RecordOk(s, d);
  }

  lemma MoveKeepsGoal(s: State, actor: Actor, d: DeviceId)
    requires Inv(s) && Recorded(s, d) && NextMove(s, actor, d).Make? && Enabled(s, NextMove(s, actor, d).w)
    requires Recorded(Effect(s, NextMove(s, actor, d).w, false), d)
    ensures var t := Effect(s, NextMove(s, actor, d).w, false);
            && (Clear(t, actor, d) <==> Clear(s, actor, d))
            && (Clear(s, actor, d) ==> Completed(t, actor, d) == Completed(s, actor, d))
  {
    hide Inv, Completed, Clear, Full;
    RecordIsOk(s, d);
    if s.records[d].value.status == Pending {
      PendingMoveKeepsGoal(s, actor, d);
    } else {
      ApprovingMoveKeepsClear(s, actor, d);
      ApprovingMoveKeepsResult(s, actor, d);
    }
  }

  lemma RecordIsOk(s: State, d: DeviceId)
    requires Inv(s) && Recorded(s, d)
    ensures RecordOk(s, d)
    ensures var e := s.records[d].value; e.target.id in s.consumed ==> Committed(e)
  {
    hide EnrolledOk;
  }

  lemma PendingMoveKeepsGoal(s: State, actor: Actor, d: DeviceId)
    requires Recorded(s, d) && RecordOk(s, d) && s.records[d].value.target.id !in s.consumed
    requires s.records[d].value.status == Pending && NextMove(s, actor, d).Make? && Enabled(s, NextMove(s, actor, d).w)
    ensures var t := Effect(s, NextMove(s, actor, d).w, false);
            && Recorded(t, d)
            && (Clear(t, actor, d) <==> Clear(s, actor, d))
            && (Clear(s, actor, d) ==> Completed(t, actor, d) == Completed(s, actor, d))
  {
    hide Full, Clear, Completed, Readable;
    var target := s.records[d].value.target;
    if target.id !in s.intents {
      IntentKeepsGoal(s, actor, d);
    } else {
      ApprovingKeepsGoal(s, actor, d);
    }
  }

  lemma IntentKeepsGoal(s: State, actor: Actor, d: DeviceId)
    requires Recorded(s, d) && s.records[d].value.status == Pending && s.records[d].value.target.id !in s.intents
    ensures var target := s.records[d].value.target;
            var t := s.(intents := s.intents[target.id := Whole(IntentOf(target, actor))]);
            && (Clear(t, actor, d) <==> Clear(s, actor, d))
            && Completed(t, actor, d) == Completed(s, actor, d)
  {
    hide Full, Readable;
  }

  lemma ApprovingKeepsGoal(s: State, actor: Actor, d: DeviceId)
    requires Recorded(s, d) && RecordOk(s, d) && s.records[d].value.target.id !in s.consumed
    requires s.records[d].value.status == Pending && Readable(s.devices) && !Full(s.devices, actor)
    requires Holds(s.intents, s.records[d].value.target.id, IntentOf(s.records[d].value.target, actor))
    ensures var t := s.(records := s.records[d := Whole(s.records[d].value.(status := Approving, actor := Some(actor)))]);
            && (Clear(t, actor, d) <==> Clear(s, actor, d))
            && Completed(t, actor, d) == Completed(s, actor, d)
  {
    hide Full, Readable;
  }

  lemma ApprovingMoveKeepsClear(s: State, actor: Actor, d: DeviceId)
    requires Recorded(s, d) && RecordOk(s, d)
    requires s.records[d].value.status == Approving && NextMove(s, actor, d).Make? && Enabled(s, NextMove(s, actor, d).w)
    ensures var t := Effect(s, NextMove(s, actor, d).w, false);
            Recorded(t, d) && (Clear(t, actor, d) <==> Clear(s, actor, d))
  {
    hide Full;
  }

  lemma ApprovingMoveKeepsResult(s: State, actor: Actor, d: DeviceId)
    requires Recorded(s, d) && RecordOk(s, d)
    requires s.records[d].value.status == Approving && NextMove(s, actor, d).Make? && Enabled(s, NextMove(s, actor, d).w)
    ensures var t := Effect(s, NextMove(s, actor, d).w, false);
            && Recorded(t, d)
            && (Clear(s, actor, d) ==> Completed(t, actor, d) == Completed(s, actor, d))
  {
    hide Full, Readable, Completed, Clear;
    var e := s.records[d].value;
    var credential := e.target.proposal.credential;
    match NextMove(s, actor, d).w
    case PutUse(_, _) => FileKeepsResult(s, actor, d, s.(consumed := s.consumed[e.target.id := Whole(UseOf(e.target, actor))]));
    case PutDevice(_, _) =>
      FileKeepsResult(s, actor, d, s.(devices := s.devices[d := Whole(Device(actor, credential, true))],
                                      enrolled := s.enrolled[d := e.target.id]));
    case PutPolicy(_, _) => FileKeepsResult(s, actor, d, s.(policies := s.policies[d := Whole(actor)]));
    case MarkApproved(_) =>
      if Clear(s, actor, d) {
        ApprovedIsCompleted(s, actor, d);
      }
    case _ => assert false;
  }

  lemma FileKeepsResult(s: State, actor: Actor, d: DeviceId, t: State)
    requires Recorded(s, d) && s.records[d].value.status == Approving
    requires var e := s.records[d].value;
             || t == s.(consumed := s.consumed[e.target.id := Whole(UseOf(e.target, actor))])
             || (d !in s.devices
                 && t == s.(devices := s.devices[d := Whole(Device(actor, e.target.proposal.credential, true))],
                            enrolled := s.enrolled[d := e.target.id]))
             || (e.target.proposal.fileActivity && d !in s.policies && t == s.(policies := s.policies[d := Whole(actor)]))
    ensures Completed(t, actor, d) == Completed(s, actor, d)
  {
  }

  lemma ApprovedIsCompleted(s: State, actor: Actor, d: DeviceId)
    requires Recorded(s, d) && RecordOk(s, d) && s.records[d].value.status == Approving && Clear(s, actor, d)
    requires NextMove(s, actor, d) == Make(MarkApproved(d)) && s.records[d].value.actor == Some(actor)
    ensures var t := s.(records := s.records[d := Whole(s.records[d].value.(status := Approved))]);
            t == Completed(s, actor, d) == Completed(t, actor, d)
  {
    hide Full, Readable;
    var target := s.records[d].value.target;
    assert s.intents[target.id := Whole(IntentOf(target, actor))] == s.intents;
    assert s.consumed[target.id := Whole(UseOf(target, actor))] == s.consumed;
    assert s.devices[d := Whole(Device(actor, target.proposal.credential, true))] == s.devices;
  }

  // ---------- Crashes and retries ----------

  /** The process died before some write of an approval, or in the middle of creating a file. */
  ghost predicate CutShort(s: State, actor: Actor, d: DeviceId, t: State)
    requires Inv(s) && Recorded(s, d)
    decreases Remaining(s, d)
  {
    || t == s
    || (NextMove(s, actor, d).Make?
        && (MoveIsEnabled(s, actor, d);
            var w := NextMove(s, actor, d).w;
            (InPlace(w) && t == Effect(s, w, true)) || CutShort(Effect(s, w, false), actor, d, t)))
  }

  /** None of the files made for an enrollment is torn. */
  predicate FilesWhole(s: State, target: Target) {
    var d := target.proposal.device;
    && (target.id in s.intents ==> s.intents[target.id].Whole?)
    && (target.id in s.consumed ==> s.consumed[target.id].Whole?)
    && (d in s.devices ==> s.devices[d].Whole?)
    && (target.proposal.fileActivity && d in s.policies ==> s.policies[d].Whole?)
  }

  predicate Intact(s: State, d: DeviceId)
    requires Recorded(s, d)
  {
    s.records[d].value.status == Approved || FilesWhole(s, s.records[d].value.target)
  }

  /** After a crash the same actor's retry ends where the uninterrupted call would have, exactly when no file is torn. */
  lemma {:induction false} RetryFinishes(s: State, actor: Actor, d: DeviceId, t: State)
    requires Inv(s) && Recorded(s, d) && Clear(s, actor, d) && CutShort(s, actor, d, t)
    ensures Inv(t) && Recorded(t, d) && t.records[d].value.target == s.records[d].value.target
    ensures Approve(t, actor, d).1.None? <==> Intact(t, d)
    ensures Intact(t, d) ==> Approve(t, actor, d) == (Completed(s, actor, d), None)
    decreases Remaining(s, d)
  {
    hide Inv, Clear, Completed, Effect, Enabled, Full, NextMove, Intact;
    ApprovesIff(s, actor, d);
    if t == s {
      ClearIsIntact(s, actor, d);
    } else {
      MoveIsEnabled(s, actor, d);
      var w := NextMove(s, actor, d).w;
      if InPlace(w) && t == Effect(s, w, true) {
        WriteKeeps(s, w, true);
        TornIsNotIntact(s, actor, d);
        ApprovesIff(t, actor, d);
      } else {
        MoveKeepsGoal(s, actor, d);
        RetryFinishes(Effect(s, w, false), actor, d, t);
      }
    }
  }

  lemma ClearIsIntact(s: State, actor: Actor, d: DeviceId)
    requires Inv(s) && Recorded(s, d) && Clear(s, actor, d)
    ensures Intact(s, d)
  {
    hide EnrolledOk, IdsDistinct, Full;
    RecordIsOk(s, d);
  }

  lemma TornIsNotIntact(s: State, actor: Actor, d: DeviceId)
    requires Inv(s) && Recorded(s, d) && NextMove(s, actor, d).Make?
    requires Enabled(s, NextMove(s, actor, d).w) && InPlace(NextMove(s, actor, d).w)
    ensures var t := Effect(s, NextMove(s, actor, d).w, true);
            && Recorded(t, d) && t.records[d].value.target == s.records[d].value.target
            && !Intact(t, d) && !Clear(t, actor, d)
  {
    hide EnrolledOk, IdsDistinct, Full, ConsumedOk, Readable;
    RecordIsOk(s, d);
  }

  /** A torn file is never repaired: from then on nobody's approval of the enrollment succeeds. */
  lemma TornForever(h: seq<State>, i: nat, k: nat, d: DeviceId, actor: Actor)
    requires History(h) && i <= k < |h| && Recorded(h[i], d) && !Intact(h[i], d)
    requires Recorded(h[k], d) && h[k].records[d].value.target == h[i].records[d].value.target
    ensures Inv(h[k]) && Approve(h[k], actor, d).1.Some?
  {
    hide Inv, History, Clear, Approve, Completed, Intact;
    EveryStateIsSound(h, k);
    TornIsNeverApproved(h, i, k, d);
    ApprovesIff(h[k], actor, d);
    if Clear(h[k], actor, d) {
      ClearIsIntact(h[k], actor, d);
    }
  }

  lemma {:induction false} TornIsNeverApproved(h: seq<State>, i: nat, k: nat, d: DeviceId)
    requires History(h) && i <= k < |h| && Recorded(h[i], d) && !Intact(h[i], d)
    ensures Recorded(h[k], d) && h[k].records[d].value.target == h[i].records[d].value.target ==> !Intact(h[k], d)
    decreases k
  {
    hide History, Inv, Later, FilesWhole, Enabled, Effect;
    var target := h[i].records[d].value.target;
    EveryStateIsSound(h, i);
    DeviceOfRecord(h[i], d);
    if i < k {
      TornIsNeverApproved(h, i, k - 1, d);
      NothingIsUndone(h, i, k - 1);
      NothingIsUndone(h, i, k);
      TornStaysTorn(h[i], h[k - 1], target);
      TornStaysTorn(h[i], h[k], target);
      var w, torn := WriteOf(h, k - 1);
      ApprovingNeedsWholeFiles(h[k - 1], w, torn, d, target);
    }
  }

  lemma WriteOf(h: seq<State>, i: nat) returns (w: Write, torn: bool)
    requires History(h) && i + 1 < |h|
    ensures Enabled(h[i], w) && (torn ==> InPlace(w)) && h[i + 1] == Effect(h[i], w, torn) && Inv(h[i])
  {
    assert Next(h[i], h[i + 1]);
    w, torn :| Enabled(h[i], w) && (torn ==> InPlace(w)) && h[i + 1] == Effect(h[i], w, torn);
    EveryStateIsSound(h, i);
  }

  lemma DeviceOfRecord(s: State, d: DeviceId)
    requires Inv(s) && Recorded(s, d)
    ensures s.records[d].value.target.proposal.device == d
  {
    assert RecordOk(s, d);
  }

  lemma ApprovingNeedsWholeFiles(s: State, w: Write, torn: bool, d: DeviceId, target: Target)
    requires Inv(s) && Enabled(s, w) && (torn ==> InPlace(w)) && target.proposal.device == d && !FilesWhole(s, target)
    requires Recorded(s, d) && s.records[d].value.target == target ==> s.records[d].value.status != Approved
    ensures var t := Effect(s, w, torn);
            Recorded(t, d) && t.records[d].value.target == target ==> t.records[d].value.status != Approved
  {
    hide ConsumedOk, EnrolledOk, IdsDistinct;
    assert Recorded(s, d) ==> RecordOk(s, d);
  }

  lemma TornStaysTorn(s: State, t: State, target: Target)
    requires Later(s, t) && !FilesWhole(s, target)
    ensures !FilesWhole(t, target)
  {
    hide RecordsLater;
  }

  /**
   Discovery reads the policies of all of an actor's systems, so one torn policy stops every later approval with
   file activity by its owner and by the administrator, whichever device is being enrolled.
   */
  lemma TornPolicyStopsItsOwner(h: seq<State>, i: nat, k: nat, p: DeviceId, actor: Actor, d: DeviceId)
    requires History(h) && i <= k < |h|
    requires p in h[i].policies && h[i].policies[p].Torn? && Visible(h[i].devices, p, actor)
    requires Recorded(h[k], d) && h[k].records[d].value.status != Approved
    requires h[k].records[d].value.target.proposal.fileActivity
    ensures Inv(h[k]) && Approve(h[k], actor, d).1.Some?
  {
    hide History, Inv, Approve, Completed;
    EveryStateIsSound(h, k);
    NothingIsUndone(h, i, k);
    StillTornAndVisible(h[i], h[k], p, actor);
    ApprovesIff(h[k], actor, d);
  }

  lemma StillTornAndVisible(s: State, t: State, p: DeviceId, actor: Actor)
    requires Later(s, t) && p in s.policies && s.policies[p].Torn? && Visible(s.devices, p, actor)
    ensures !Shown(t, actor)
  {
    hide RecordsLater;
    assert DeviceLater(s.devices[p], t.devices[p]);
    assert Visible(t.devices, p, actor);
  }

  /** It happens: a policy torn on device 1 stops the approval of device 2, none of whose own files is torn. */
  lemma TornPolicyStopsAnotherDevice() returns (h: seq<State>)
    ensures h != [] && History(h) && Inv(h[|h| - 1]) && Recorded(h[|h| - 1], 2)
    ensures FilesWhole(h[|h| - 1], h[|h| - 1].records[2].value.target)
    ensures Approve(h[|h| - 1], 7, 2).1.Some?
  {
    var s1 := Effect(EMPTY, PairDevice(1, Device(7, 5, true)), false);
    var s2 := Effect(s1, PutPolicy(1, 7), true);
    var target := Target(Proposal(2, 6, 8, 9, true, 0), 3, 0, LIFETIME);
    var s3 := Effect(s2, AddRecord(2, target), false);
    h := [EMPTY, s1, s2, s3];
    assert Next(EMPTY, s1) && Next(s1, s2) && Next(s2, s3);
    assert Visible(s2.devices, 1, 7) && s2.policies[1].Torn?;
    TornPolicyStopsItsOwner(h, 2, 3, 1, 7, 2);
  }

  /** The first intent decides who can ever be the enrollment's actor. */
  lemma IntentDecidesActor(h: seq<State>, i: nat, k: nat, d: DeviceId, target: Target, a: Actor, b: Actor)
    requires History(h) && i <= k < |h| && Holds(h[i].intents, target.id, IntentOf(target, a))
    requires Recorded(h[k], d) && h[k].records[d].value.target == target
    ensures Inv(h[k]) && (Approve(h[k], b, d).1.None? ==> a == b)
    ensures CommittedTo(h[k], d, b) ==> a == b
  {
    hide History, Approve, Completed, ConsumedOk, EnrolledOk, IdsDistinct;
    EveryStateIsSound(h, k);
    NothingIsUndone(h, i, k);
    ApprovesIff(h[k], b, d);
    assert RecordOk(h[k], d);
  }

  /** Once committed, whatever else happened since, only the same actor can finish the enrollment. */
  lemma OnlyTheSameActorResumes(h: seq<State>, i: nat, k: nat, d: DeviceId, a: Actor, b: Actor)
    requires History(h) && i <= k < |h| && CommittedTo(h[i], d, a)
    ensures Inv(h[k]) && CommittedTo(h[k], d, a)
    ensures b != a ==> Approve(h[k], b, d) == (h[k], Some(ActorMismatch))
    ensures Approve(h[k], a, d).1.None? <==> Resumable(h[k], a, d)
  {
    hide History, Completed, ConsumedOk, EnrolledOk, IdsDistinct;
    EveryStateIsSound(h, k);
    ApprovingIsFinal(h, i, k, d, a);
    ApprovesIff(h[k], a, d);
  }

  /**
   The enrollment is approved, or its files are intact, its device still fits and is not revoked, a device may be
   added, and, if it asks for file activity, discovery can read the policies of all the actor's systems.
   */
  predicate Resumable(s: State, actor: Actor, d: DeviceId)
    requires Recorded(s, d)
  {
    var e := s.records[d].value;
    || e.status == Approved
    || (&& (e.target.id in s.consumed ==> s.consumed[e.target.id].Whole?)
        && (d in s.devices ==> s.devices[d] == Whole(Device(actor, e.target.proposal.credential, true)))
        && (d !in s.devices ==> Readable(s.devices) && !Full(s.devices, actor))
        && (e.target.proposal.fileActivity ==>
              Readable(s.devices) && Shown(s, actor) && (d in s.policies ==> s.policies[d].Whole?)))
  }
}
