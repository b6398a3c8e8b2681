/** The notification calls as they run over the files, one durable write at a time. */
module NotificationStore {
  import opened Basics
  import opened Notifications

  /** A call answers, refuses, or is cut short by the death of the process. */
  datatype Reply<+T> = Done(value: T) | Denied(why: Problem) | Died

  lemma Extends1(h: seq<State>, w: Write)
    requires History(h) && Enabled(h[|h| - 1], w)
    ensures History(h + [Effect(h[|h| - 1], w)])
  {
    hide Effect, Enabled;
    var longer := h + [Effect(h[|h| - 1], w)];
    forall i | 0 <= i < |longer| - 1 ensures Next(longer[i], longer[i + 1]) {
      if i < |h| - 1 {
        assert Next(h[i], h[i + 1]);
      }
    }
  }

  /** Some old records are gone, with or without their approval files. */
  ghost predicate PartlyForgotten(s: State, t: State) {
    && t == s.(notices := t.notices, approvals := t.approvals)
    && (forall id :: id in t.notices ==> id in s.notices && t.notices[id] == s.notices[id])
    && (forall id :: id in Remembered(s).notices ==> id in t.notices)
    && Remembered(s).approvals <= t.approvals <= s.approvals
  }

  /** A notification that this device may be handed. */
  predicate Eligible(s: State, id: NoticeId, actor: Actor, device: DeviceId, sources: set<RunId>) {
    && id in s.notices
    && var n := s.notices[id];
    n.content.device == device && n.content.actor == actor && MayDeliver(n, s.clock) && n.content.run in sources
  }

  ghost predicate FirstEligible(s: State, listing: seq<NoticeId>, id: NoticeId, actor: Actor, device: DeviceId, sources: set<RunId>) {
    exists i :: 0 <= i < |listing| && listing[i] == id && Eligible(s, id, actor, device, sources)
             && forall k :: 0 <= k < i ==> !Eligible(s, listing[k], actor, device, sources)
  }

  class AgentNotifications {
    var notices: map<NoticeId, Notice>
    var approvals: set<NoticeId>
    var consents: map<DeviceId, Consent>
    // Durable writes that still succeed; the process dies at the next one.
    var fuel: nat
    var clock: Time
    ghost var ids: set<NoticeId>
    ghost var grants: seq<Grant>
    ghost var handed: seq<Handed>
    ghost var history: seq<State>

    ghost function Now(): State
      reads this
    {
      State(notices, approvals, consents, clock, ids, grants, handed)
    }

    ghost predicate Valid()
      reads this
    {
      History(history) && history[|history| - 1] == Now()
    }

    constructor Open(fuel: nat)
      ensures Valid() && Now() == EMPTY && history == [EMPTY]
      ensures this.fuel == fuel
    {
      notices, approvals, consents, clock := map[], {}, map[], 0;
      this.fuel := fuel;
      ids, grants, handed, history := {}, [], [], [EMPTY];
    }

    /** A restart finds the files as the last writes left them. */
    constructor Restart(died: AgentNotifications, fuel: nat)
      requires died.Valid()
      ensures Valid() && Now() == died.Now() && history == died.history
      ensures this.fuel == fuel
    {
      notices, approvals, consents, clock := died.notices, died.approvals, died.consents, died.clock;
      this.fuel := fuel;
      ids, grants, handed, history := died.ids, died.grants, died.handed, died.history;
    }

    lemma Sound()
      requires Valid()
      ensures Inv(Now())
    {
      EveryStateIsSound(history, |history| - 1);
    }

    method Observe(now: Time)
      requires Valid() && clock <= now
      modifies this`clock, this`history
      ensures Valid() && Now() == old(Now()).(clock := now) && old(history) <= history
    {
      Extends1(history, Tick(now));
      clock := now;
      history := history + [Now()];
    }

    method Save(id: NoticeId, n: Notice, ghost w: Write) returns (ok: bool)
      requires Valid() && Enabled(Now(), w)
      requires var t := Effect(Now(), w);
               t == Now().(notices := notices[id := n], ids := t.ids, grants := t.grants, handed := t.handed)
      modifies this`notices, this`fuel, this`ids, this`grants, this`handed, this`history
      ensures !ok ==> fuel == 0
      ensures Valid() && old(history) <= history
      ensures Now() == if ok then Effect(old(Now()), w) else old(Now())
    {
      if fuel == 0 { return false; }
      fuel := fuel - 1;
      Extends1(history, w);
      ghost var t := Effect(Now(), w);
      notices := notices[id := n];
      ids, grants, handed := t.ids, t.grants, t.handed;
      history := history + [Now()];
      return true;
    }

    method CreateApproval(id: NoticeId) returns (ok: bool)
      requires Valid() && Enabled(Now(), PutApproval(id))
      modifies this`approvals, this`fuel, this`history
      ensures !ok ==> fuel == 0
      ensures Valid() && old(history) <= history
      ensures Now() == if ok then old(Now()).(approvals := old(approvals) + {id}) else old(Now())
    {
      if fuel == 0 { return false; }
      fuel := fuel - 1;
      Extends1(history, PutApproval(id));
      approvals := approvals + {id};
      history := history + [Now()];
      return true;
    }

    /** Forget one old record: first the record, then its approval file if there is one. */
    method Forget(id: NoticeId) returns (ok: bool)
      requires Valid() && Enabled(Now(), Unlink(id))
      modifies this`notices, this`approvals, this`fuel, this`history
      ensures !ok ==> fuel == 0
      ensures Valid() && old(history) <= history
      ensures Now() == old(Now()).(notices := notices, approvals := approvals)
      ensures ok ==> notices == old(notices) - {id} && approvals == old(approvals) - {id}
      ensures !ok ==> (notices == old(notices) || notices == old(notices) - {id}) && approvals == old(approvals)
    {
      if fuel == 0 { return false; }
      fuel := fuel - 1;
      Extends1(history, Unlink(id));
      notices := notices - {id};
      history := history + [Now()];
      if id in approvals {
        if fuel == 0 { return false; }
        fuel := fuel - 1;
        Extends1(history, UnlinkApproval(id));
        approvals := approvals - {id};
        history := history + [Now()];
      }
      return true;
    }

    method Records() returns (done: bool)
      requires Valid()
      modifies this`notices, this`approvals, this`fuel, this`history
      ensures !done ==> fuel == 0
      ensures Valid() && old(history) <= history
      ensures PartlyForgotten(old(Now()), Now()) && (done ==> Now() == Remembered(old(Now())))
    {
      hide History, Effect, Inv;
      ghost var s := Now();
      var todo := notices.Keys;
      while todo != {}
        invariant Valid() && old(history) <= history && todo <= notices.Keys
        invariant PartlyForgotten(s, Now())
        invariant forall id :: id in notices && id !in todo ==> id in Remembered(s).notices
        invariant forall id :: id in s.notices && id !in notices ==> id !in approvals
        decreases todo
      {
        var id :| id in todo;
        if Old(notices[id], clock) {
          done := Forget(id);
          if !done { return; }
        }
        todo := todo - {id};
      }
      done := true;
    }

    method DraftNotice(content: Content, owned: bool, sourceAllowed: bool) returns (reply: Reply<Notice>)
      requires Valid() && content.id !in ids && content.created == clock
      modifies this`notices, this`approvals, this`fuel, this`ids, this`grants, this`handed, this`history
      ensures reply.Died? ==> fuel == 0
      ensures Valid() && old(history) <= history
      ensures match reply
              case Died => PartlyForgotten(old(Now()), Now())
              case Denied(why) =>
                && Now() == old(Now()) && !(owned && sourceAllowed)
                && why == if !owned then AccessDenied else SourceDenied
              case Done(n) =>
                && owned && sourceAllowed && n == Drafted(content)
                && Now() == Effect(Remembered(old(Now())), AddDraft(content))
    {
      hide History, Inv;
      if !owned { return Denied(AccessDenied); }
      if !sourceAllowed { return Denied(SourceDenied); }
      var done := Records();
      if !done { return Died; }
      var n := Drafted(content);
      done := Save(content.id, n, AddDraft(content));
      if !done { return Died; }
      return Done(n);
    }

    /** An approval names the exact revision and digest, and writes the approval file before the record. */
    method Approve(actor: Actor, body: ApprovalRequest, world: World) returns (reply: Reply<Notice>)
      requires Valid()
      modifies this`notices, this`approvals, this`fuel, this`ids, this`grants, this`handed, this`history
      ensures reply.Died? ==> fuel == 0
      ensures Valid() && old(history) <= history
      ensures var s := old(Now());
              var problem := ApprovalProblem(s, actor, body, world);
              match reply
              case Died =>
                || PartlyForgotten(s, Now())
                || (problem.None? && Now() == Remembered(s).(approvals := Remembered(s).approvals + {body.id}))
              case Denied(why) => problem == Some(why) && (Now() == s || Now() == Remembered(s))
              case Done(n) =>
                && problem.None? && n == Approved(s.notices[body.id], s.clock)
                && Now() == Remembered(s).(
                     notices := Remembered(s).notices[body.id := n], approvals := Remembered(s).approvals + {body.id},
                     grants := s.grants + [Grant(body.id, n.content.device, body.digest, s.clock)])
    {
      hide History, Inv, RecentlyApproved;
      if body.id !in notices { return Denied(NotFound); }
      var job := notices[body.id];
      if !world.owned { return Denied(AccessDenied); }
      if job.content.id != body.id || job.content.actor != actor || job.status != Draft || job.revision != body.revision
         || job.content != body.digest || job.expires <= clock
      {
        return Denied(RevisionChanged);
      }
      if !world.online || !Consents(consents, job.content.device, actor, clock) { return Denied(ConsentRequired); }
      if !world.sourceAllowed { return Denied(SourceDenied); }
      Sound();
      DraftIsRemembered(Now(), body.id);
      var done := Records();
      if !done { return Died; }
      if RecentlyApproved(notices, job.content.device, clock) { return Denied(RateLimited); }
      if body.id in approvals { return Denied(StorageFailure); }
      done := CreateApproval(body.id);
      if !done { return Died; }
      var n := Approved(job, clock);
      done := Save(body.id, n, Queue(body.id));
      if !done { return Died; }
      return Done(n);
    }

    /** The first eligible notification of the listing; the record says it was taken before it is handed out. */
    method Claim(listing: seq<NoticeId>, actor: Actor, device: DeviceId, enabled: bool, capable: bool, owned: bool, sources: set<RunId>)
      returns (reply: Reply<Option<Notice>>)
      requires Valid()
      modifies this`notices, this`approvals, this`consents, this`fuel, this`ids, this`grants, this`handed, this`history
      ensures reply.Died? ==> fuel == 0
      ensures Valid() && old(history) <= history
      ensures var s := old(Now());
              var heard := s.(consents := s.consents[device := Consent(actor, s.clock, enabled, capable)]);
              var t := Remembered(heard);
              match reply
              case Died => handed == old(handed)
              case Denied(why) => why == AccessDenied && !owned && Now() == s
              case Done(None) =>
                if !enabled || !capable then Now() == heard
                else Now() == t && forall id :: id in listing ==> !Eligible(t, id, actor, device, sources)
              case Done(Some(n)) =>
                && enabled && capable && n.approval.Some?
                && FirstEligible(t, listing, n.content.id, actor, device, sources)
                && n == Taken(t.notices[n.content.id], s.clock)
                && Now() == t.(notices := t.notices[n.content.id := n],
                               handed := t.handed + [Handed(n.content.id, n.approval.value.digest, s.clock)])
    {
      hide History, Inv;
      if !owned { return Denied(AccessDenied); }
      if fuel == 0 { return Died; }
      fuel := fuel - 1;
      var consent := Consent(actor, clock, enabled, capable);
      Extends1(history, PutConsent(device, consent));
      consents := consents[device := consent];
      history := history + [Now()];
      if !enabled || !capable { return Done(None); }
      var done := Records();
      if !done { return Died; }
      for i := 0 to |listing|
        invariant Valid() && old(history) <= history && Now() == Remembered(old(Now()).(consents := consents))
        invariant forall k :: 0 <= k < i ==> !Eligible(Now(), listing[k], actor, device, sources)
      {
        var id := listing[i];
        if id in notices && notices[id].content.device == device && notices[id].content.actor == actor
           && MayDeliver(notices[id], clock) && notices[id].content.run in sources
        {
          Sound();
          NamedById(Now(), id);
          var n := Taken(notices[id], clock);
          done := Save(id, n, Deliver(id));
          if !done { return Died; }
          return Done(Some(n));
        }
      }
      return Done(None);
    }

    /** Only the device it was handed to reports on a notification, with its digest, before it expires. */
    method Finish(actor: Actor, device: DeviceId, id: NoticeId, digest: Content, status: Status, owned: bool)
      returns (reply: Reply<()>)
      requires Valid() && (status == DisplayRequested || status == Declined || status == Unsupported)
      modifies this`notices, this`fuel, this`ids, this`grants, this`handed, this`history
      ensures reply.Died? ==> fuel == 0
      ensures Valid() && old(history) <= history
      ensures var fits := && id in old(notices) && owned && old(notices)[id].status == Delivering
                          && old(notices)[id].content == digest && digest.actor == actor && digest.device == device
                          && clock < old(notices)[id].expires;
              match reply
              case Done(_) =>
                fits && Now() == old(Now()).(notices := old(notices)[
                  id := old(notices)[id].(status := status, revision := old(notices)[id].revision + 1)])
              case Denied(why) =>
                && !fits && Now() == old(Now())
                && why == if id !in old(notices) then NotFound else if !owned then AccessDenied else ScopeDenied
              case Died => fits && Now() == old(Now())
    {
      hide History, Inv;
      if id !in notices { return Denied(NotFound); }
      if !owned { return Denied(AccessDenied); }
      var job := notices[id];
      Sound();
      NamedById(Now(), id);
      if job.content.id != id || job.content.actor != actor || job.content.device != device || job.content != digest
         || job.status != Delivering || job.approval.None? || job.approval.value.consumed.None? || job.expires <= clock
      {
        return Denied(ScopeDenied);
      }
      var done := Save(id, job.(status := status, revision := job.revision + 1), Complete(id, status));
      if !done { return Died; }
      return Done(());
    }
  }

  lemma NamedById(s: State, id: NoticeId)
    requires Inv(s) && id in s.notices
    ensures s.notices[id].content.id == id
    ensures s.notices[id].status == Delivering ==>
              s.notices[id].approval.Some? && s.notices[id].approval.value.consumed.Some?
  {
    assert NoticeOk(s, id);
  }

  lemma DraftIsRemembered(s: State, id: NoticeId)
    requires Inv(s) && id in s.notices && s.notices[id].status == Draft && s.clock < s.notices[id].expires
    ensures id in Remembered(s).notices && (id in Remembered(s).approvals <==> id in s.approvals)
  {
    assert NoticeOk(s, id);
  }
}
