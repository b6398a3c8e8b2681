/** What the answers of pairing mean, told from the files alone. */
module PairingAnswers {
  import opened Basics
  import opened Pairing
  import opened PairingApproval
  import opened PairingStore

  // ---------- decide ----------

  /** The files are at fault, or no device may be added; nothing about the decision itself. */
  predicate AboutFiles(why: Problem) {
    why in {DeviceLimit, AuditUnavailable, AuditMismatch, DeviceCollision, StorageFailure}
  }

  lemma {:induction false} ApprovalStopsAtFiles(s: State, actor: Actor, d: DeviceId)
    requires Inv(s) && Recorded(s, d) && s.records[d].value.status != Rejected
    requires s.records[d].value.actor.Some? ==> s.records[d].value.actor.value == actor
    ensures Approve(s, actor, d).1.Some? ==> AboutFiles(Approve(s, actor, d).1.value)
    decreases Remaining(s, d)
  {
    hide Inv, Effect, Enabled, Full, Readable;
    var move := NextMove(s, actor, d);
    if move.Make? {
      MoveIsEnabled(s, actor, d);
      MoveStaysOpen(s, actor, d);
      ApprovalStopsAtFiles(Effect(s, move.w, false), actor, d);
    }
  }

  lemma MoveStaysOpen(s: State, actor: Actor, d: DeviceId)
    requires Inv(s) && Recorded(s, d) && NextMove(s, actor, d).Make? && Enabled(s, NextMove(s, actor, d).w)
    requires s.records[d].value.actor.Some? ==> s.records[d].value.actor.value == actor
    ensures var t := Effect(s, NextMove(s, actor, d).w, false);
            && Recorded(t, d) && t.records[d].value.status != Rejected
            && (t.records[d].value.actor.Some? ==> t.records[d].value.actor.value == actor)
  {
    hide ConsumedOk, EnrolledOk, IdsDistinct, Full, Readable;
    assert RecordOk(s, d);
  }

  /**
   A decision counts only for the exact proposal it was shown, before it expires, and by the actor who began it. Each
   refusal has its own cause, none of these leaves a trace, and an approval that passes them can fail only on files.
   */
  lemma DecidedForCause(h: seq<State>, k: nat, d: DeviceId, actor: Actor, digest: Target, approve: bool)
    requires History(h) && k < |h| && Recorded(h[k], d)
    ensures Inv(h[k])
    ensures var s := h[k];
            var e := s.records[d].value;
            var (t, problem) := Decided(s, actor, e.target.id, digest, approve);
            var shown := e.target == digest && s.clock < e.target.expires;
            var own := e.actor == None || e.actor == Some(actor);
            && (problem == Some(ExpiredOrChanged) <==> !shown)
            && (problem == Some(ActorMismatch) <==> shown && !own)
            && (problem == Some(AlreadyDecided) <==>
                  shown && own && (e.status == Rejected || (!approve && e.status != Pending)))
            && (problem.Some? && !AboutFiles(problem.value) ==> t == s)
            && (problem.Some? && AboutFiles(problem.value) ==> approve && shown && own)
            && (problem.Some? ==> problem.value in {ExpiredOrChanged, ActorMismatch, AlreadyDecided} || AboutFiles(problem.value))
            && (problem.None? && !approve ==>
                  t == s.(records := s.records[d := Whole(Enrollment(digest, Rejected, Some(actor)))]))
            && (problem.None? && approve ==> t == Completed(s, actor, d) && Clear(s, actor, d))
  {
    hide History, Inv, Approve, Completed, Clear;
    var s := h[k];
    EveryStateIsSound(h, k);
    var e := s.records[d].value;
    DecidedOn(s, d, actor, e.target.id, digest, approve);
    if Objection(e, actor, digest, approve, s.clock).None? && approve {
      ApprovalStopsAtFiles(s, actor, d);
      ApprovesIff(s, actor, d);
    }
  }

  /** An id that no record bears is not found, and nothing else is. */
  lemma NotFoundMeansUnknown(h: seq<State>, k: nat, id: EnrollmentId, actor: Actor, digest: Target, approve: bool)
    requires History(h) && k < |h|
    ensures Inv(h[k])
    ensures Decided(h[k], actor, id, digest, approve).1 == Some(NotFound)
       <==> forall d :: d in h[k].records && h[k].records[d].Whole? ==> h[k].records[d].value.target.id != id
  {
    hide History, Inv, Approve;
    EveryStateIsSound(h, k);
    if d :| Names(h[k], d, id) {
      DecidedForCause(h, k, d, actor, digest, approve);
      assert h[k].records[d].value.target.id == id;
    } else {
      forall d | d in h[k].records && h[k].records[d].Whole? ensures h[k].records[d].value.target.id != id {
        assert !Names(h[k], d, id);
      }
    }
  }

  // ---------- The limit on devices ----------

  ghost function OwnActive(devices: map<DeviceId, File<Device>>, actor: Actor): set<DeviceId> {
    set d | d in devices && devices[d].Whole? && devices[d].value.active && devices[d].value.owner == actor
  }

  lemma FullMeansTen(devices: map<DeviceId, File<Device>>, actor: Actor)
    ensures Full(devices, actor) <==> |OwnActive(devices, actor)| >= 10
  {
    assert OwnActive(devices, actor)
        == set d | d in devices && devices[d].Whole? && devices[d].value.owner == actor && devices[d].value.active;
  }

  /** An approval that creates a device leaves its owner with at most ten active ones, whatever revoked ones there are. */
  lemma AtMostTenDevices(s: State, actor: Actor, d: DeviceId)
    requires Inv(s) && Recorded(s, d) && s.records[d].value.status != Approved && d !in s.devices
    requires Approve(s, actor, d).1.None?
    ensures |OwnActive(Approve(s, actor, d).0.devices, actor)| <= 10
  {
    hide Inv, Full, Readable, Approve;
    ApprovesIff(s, actor, d);
    FullMeansTen(s.devices, actor);
    var after := Approve(s, actor, d).0.devices;
    assert after == s.devices[d := Whole(Device(actor, s.records[d].value.target.proposal.credential, true))];
    assert OwnActive(after, actor) == OwnActive(s.devices, actor) + {d};
  }

  // ---------- Which file stops an approval ----------

  /** A file of the enrollment holds something else than what this actor's approval would have written. */
  ghost predicate Foreign(s: State, actor: Actor, d: DeviceId)
    requires Recorded(s, d)
  {
    var target := s.records[d].value.target;
    || (target.id in s.intents && s.intents[target.id].Whole?
        && s.intents[target.id].value != Evidence(actor, target.proposal.device, target, Some(target.expires)))
    || (target.id in s.consumed && s.consumed[target.id].Whole?
        && s.consumed[target.id].value != Evidence(actor, target.proposal.device, target, None))
  }

  /** What a refusal that is about files says of them. */
  ghost predicate FileCause(s: State, actor: Actor, d: DeviceId, why: Problem)
    requires Recorded(s, d)
  {
    var e := s.records[d].value;
    match why
    case AuditUnavailable =>
      || (e.target.id in s.intents && s.intents[e.target.id].Torn?)
      || (e.target.id in s.consumed && s.consumed[e.target.id].Torn?)
    case AuditMismatch => Foreign(s, actor, d)
    case DeviceLimit => (e.status == Pending || d !in s.devices) && |OwnActive(s.devices, actor)| >= 10
    case DeviceCollision =>
      d in s.devices && s.devices[d].Whole? && s.devices[d].value != Device(actor, e.target.proposal.credential, true)
    case StorageFailure =>
      || (exists x :: x in s.devices && s.devices[x].Torn?)
      || (e.target.proposal.fileActivity && (!Shown(s, actor) || (d in s.policies && s.policies[d].Torn?)))
    case _ => false
  }

  /** An approval that fails on files names the file that stopped it, as it was before the approval began. */
  lemma {:induction false} StoppedForCause(s: State, actor: Actor, d: DeviceId)
    requires Inv(s) && Recorded(s, d)
    ensures var problem := Approve(s, actor, d).1;
            problem.Some? && AboutFiles(problem.value) ==> FileCause(s, actor, d, problem.value)
    decreases Remaining(s, d)
  {
    hide Inv, Effect, Enabled, Full, Readable, FileCause, NextMove, Adds;
    var move := NextMove(s, actor, d);
    match move
    case Refuse(why) =>
      if AboutFiles(why) {
        RefusedForCause(s, actor, d);
      }
    case Finish =>
    case Make(w) =>
      MoveIsEnabled(s, actor, d);
      var t := Effect(s, w, false);
      StoppedForCause(t, actor, d);
      MoveAdds(s, actor, d);
      ItsOwnDevice(s, d);
      if Approve(s, actor, d).1.Some? && AboutFiles(Approve(s, actor, d).1.value) {
        CauseWasThere(s, t, actor, d, Approve(s, actor, d).1.value);
      }
  }

  lemma RefusedForCause(s: State, actor: Actor, d: DeviceId)
    requires Inv(s) && Recorded(s, d) && NextMove(s, actor, d).Refuse? && AboutFiles(NextMove(s, actor, d).why)
    ensures FileCause(s, actor, d, NextMove(s, actor, d).why)
  {
    hide ConsumedOk, EnrolledOk, IdsDistinct, Full;
    assert RecordOk(s, d);
    FullMeansTen(s.devices, actor);
  }

  lemma ItsOwnDevice(s: State, d: DeviceId)
    requires Inv(s) && Recorded(s, d)
    ensures s.records[d].value.target.proposal.device == d
  {
    hide ConsumedOk, EnrolledOk, IdsDistinct;
    assert RecordOk(s, d);
  }

  /** Each write of an approval creates one file with the right contents, or changes the record's status. */
  ghost predicate Adds(s: State, t: State, actor: Actor, d: DeviceId)
    requires Recorded(s, d) && Recorded(t, d)
  {
    var target := s.records[d].value.target;
    && t.records[d].value.target == target && t.blinded == s.blinded
    && (t.intents == s.intents || t.intents == s.intents[target.id := Whole(IntentOf(target, actor))])
    && (t.consumed == s.consumed || t.consumed == s.consumed[target.id := Whole(UseOf(target, actor))])
    && (t.policies == s.policies || t.policies == s.policies[d := Whole(actor)])
    && (t.devices == s.devices
        || (t.devices == s.devices[d := Whole(Device(actor, target.proposal.credential, true))]
            && d !in s.devices && t.records[d].value.status != Pending && t.policies == s.policies))
    && (t.records[d].value.status == Pending ==> s.records[d].value.status == Pending)
    && (d in s.policies ==> t.policies == s.policies)
    && (target.id in s.intents ==> t.intents == s.intents) && (target.id in s.consumed ==> t.consumed == s.consumed)
  }

  lemma MoveAdds(s: State, actor: Actor, d: DeviceId)
    requires Inv(s) && Recorded(s, d) && NextMove(s, actor, d).Make? && Enabled(s, NextMove(s, actor, d).w)
    ensures var t := Effect(s, NextMove(s, actor, d).w, false); Recorded(t, d) && Adds(s, t, actor, d)
  {
    hide ConsumedOk, EnrolledOk, IdsDistinct, Full, Readable, Discoverable, EvidenceProblem, DeviceProblem, Used, Belongs;
    hide DeviceMove, Adds;
    assert RecordOk(s, d);
    if s.records[d].value.status == Pending {
      OnlyIntentAdds(s, Effect(s, NextMove(s, actor, d).w, false), actor, d);
    } else {
      ApprovingMoveAdds(s, actor, d);
    }
  }

  lemma OnlyIntentAdds(s: State, t: State, actor: Actor, d: DeviceId)
    requires Recorded(s, d) && Recorded(t, d) && t == s.(records := t.records, intents := t.intents)
    requires var target := s.records[d].value.target;
             && s.records[d].value.status == Pending && t.records[d].value.target == target
             && (t.intents == s.intents
                 || (target.id !in s.intents && t.intents == s.intents[target.id := Whole(IntentOf(target, actor))]))
    ensures Adds(s, t, actor, d)
  {
  }

  lemma ApprovingMoveAdds(s: State, actor: Actor, d: DeviceId)
    requires Inv(s) && Recorded(s, d) && NextMove(s, actor, d).Make? && Enabled(s, NextMove(s, actor, d).w)
    requires s.records[d].value.status == Approving
    ensures var t := Effect(s, NextMove(s, actor, d).w, false); Recorded(t, d) && Adds(s, t, actor, d)
  {
    hide ConsumedOk, EnrolledOk, IdsDistinct, Full, Readable, Discoverable, EvidenceProblem, DeviceProblem, Used, Belongs;
    assert RecordOk(s, d);
  }

  lemma CauseWasThere(s: State, t: State, actor: Actor, d: DeviceId, why: Problem)
    requires Recorded(s, d) && s.records[d].value.target.proposal.device == d
    requires Recorded(t, d) && Adds(s, t, actor, d) && FileCause(t, actor, d, why)
    ensures FileCause(s, actor, d, why)
  {
    hide OwnActive;
  }

  // ---------- Discovery, and torn devices ----------

  /** What an actor can see depends on the policies of its own devices, and for the administrator on everybody's. */
  lemma DiscoveryReadsOwnPolicies(s: State, actor: Actor)
    ensures Shown(s, actor) <==>
              && actor !in s.blinded
              && forall p :: p in s.policies && p in s.devices && s.devices[p].Whole? && s.policies[p].Torn?
                   ==> s.devices[p].value.owner != actor && actor != ADMINISTRATOR
  {
  }

  /** One torn device file stops every new approval. */
  lemma TornDeviceStopsNewApprovals(s: State, actor: Actor, d: DeviceId, torn: DeviceId)
    requires Inv(s) && Recorded(s, d) && s.records[d].value.status == Pending
    requires torn in s.devices && s.devices[torn].Torn?
    ensures Approve(s, actor, d) == (s, Some(StorageFailure))
  {
    hide ConsumedOk, EnrolledOk, IdsDistinct, Full;
    assert RecordOk(s, d);
  }

  // ---------- Forgetting ----------

  /** Reading forgets exactly the pending and rejected records that expired more than half an hour ago. */
  lemma ForgottenAfterHalfAnHour(s: State, d: DeviceId)
    requires d in s.records
    ensures d !in Pruned(s).records <==>
              && s.records[d].Whole? && s.records[d].value.status in {Pending, Rejected}
              && s.records[d].value.target.expires + 1800000 < s.clock
  {
  }
}
