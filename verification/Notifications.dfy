/**
 Notifications: drafted for a run, approved by their actor, handed to one device and completed. The
 approval file and the record are two writes; old records are forgotten after a week.
 */
module Notifications {
  import opened Basics

  type NoticeId = nat
  type DeviceId = nat
  type RunId = nat

  /** What a notification's digest is taken over; equal digests mean equal contents. */
  datatype Content = Content(id: NoticeId, actor: Actor, device: DeviceId, run: RunId, text: nat, created: Time)
  datatype Status = Draft | Queued | Delivering | DisplayRequested | Declined | Unsupported
  datatype Approval = Approval(digest: Content, issued: Time, expires: Time, consumed: Option<Time>)
  datatype Notice = Notice(content: Content, revision: nat, expires: Time, status: Status, approval: Option<Approval>)

  /** What a device last said about itself. */
  datatype Consent = Consent(actor: Actor, at: Time, enabled: bool, capable: bool)

  /** Every approval that was ever queued, and every notification ever handed to a device. */
  datatype Grant = Grant(id: NoticeId, device: DeviceId, digest: Content, issued: Time)
  datatype Handed = Handed(id: NoticeId, digest: Content, at: Time)

  /** `ids`, `grants` and `handed` are history variables. */
  datatype State = State(
    notices: map<NoticeId, Notice>, approvals: set<NoticeId>, consents: map<DeviceId, Consent>, clock: Time,
    ids: set<NoticeId>, grants: seq<Grant>, handed: seq<Handed>)

  const EMPTY := State(map[], {}, map[], 0, {}, [], [])
  const HOUR: nat := 3600000
  const DAY: nat := 86400000
  const APPROVED_FOR: nat := 600000

  predicate Old(n: Notice, now: Time) {
    n.content.created < now - 7 * DAY
  }

  /** An approval for the device is on record that was issued within the hour. */
  predicate RecentlyApproved(notices: map<NoticeId, Notice>, device: DeviceId, now: Time) {
    exists id :: id in notices && notices[id].content.device == device && notices[id].approval.Some?
              && notices[id].approval.value.issued > now - HOUR
  }

  // ---------- One durable write ----------

  datatype Write =
    | Tick(now: Time)
    | AddDraft(content: Content)
    | PutApproval(id: NoticeId)
    | Queue(id: NoticeId)
    | Unlink(id: NoticeId)
    | UnlinkApproval(id: NoticeId)
    | PutConsent(device: DeviceId, consent: Consent)
    | Deliver(id: NoticeId)
    | Complete(id: NoticeId, status: Status)

  predicate MayQueue(s: State, id: NoticeId) {
    && id in s.notices && s.notices[id].status == Draft && s.clock < s.notices[id].expires
    && !RecentlyApproved(s.notices, s.notices[id].content.device, s.clock)
  }

  predicate MayDeliver(n: Notice, now: Time) {
    n.status == Queued && n.approval.Some? && n.approval.value.consumed.None? && now < n.expires
  }

  predicate Enabled(s: State, w: Write) {
    match w
    case Tick(now) => s.clock <= now
    case AddDraft(content) => content.id !in s.ids && content.created == s.clock
    case PutApproval(id) => MayQueue(s, id) && id !in s.approvals
    case Queue(id) => MayQueue(s, id) && id in s.approvals
    case Unlink(id) => id in s.notices && Old(s.notices[id], s.clock)
    case UnlinkApproval(id) => id !in s.notices
    case PutConsent(device, consent) => true
    case Deliver(id) => id in s.notices && MayDeliver(s.notices[id], s.clock)
    case Complete(id, status) =>
      && id in s.notices && s.notices[id].status == Delivering && s.clock < s.notices[id].expires
      && (status == DisplayRequested || status == Declined || status == Unsupported)
  }

  function Drafted(content: Content): Notice {
    Notice(content, 1, content.created + DAY, Draft, None)
  }

  function Approved(n: Notice, now: Time): Notice {
    Notice(n.content, n.revision + 1, now + APPROVED_FOR, Queued,
           Some(Approval(n.content, now, now + APPROVED_FOR, None)))
  }

  function Taken(n: Notice, now: Time): Notice
    requires n.approval.Some?
  {
    n.(status := Delivering, revision := n.revision + 1, approval := Some(n.approval.value.(consumed := Some(now))))
  }

  function Effect(s: State, w: Write): State
    requires Enabled(s, w)
  {
    match w
    case Tick(now) => s.(clock := now)
    case AddDraft(content) => s.(notices := s.notices[content.id := Drafted(content)], ids := s.ids + {content.id})
    case PutApproval(id) => s.(approvals := s.approvals + {id})
    case Queue(id) =>
      var n := s.notices[id];
      s.(notices := s.notices[id := Approved(n, s.clock)],
         grants := s.grants + [Grant(id, n.content.device, n.content, s.clock)])
    case Unlink(id) => s.(notices := s.notices - {id})
    case UnlinkApproval(id) => s.(approvals := s.approvals - {id})
    case PutConsent(device, consent) => s.(consents := s.consents[device := consent])
    case Deliver(id) =>
      s.(notices := s.notices[id := Taken(s.notices[id], s.clock)],
         handed := s.handed + [Handed(id, s.notices[id].approval.value.digest, s.clock)])
    case Complete(id, status) =>
      s.(notices := s.notices[id := s.notices[id].(status := status, revision := s.notices[id].revision + 1)])
  }

  // ---------- What every write keeps ----------

  ghost predicate Inv(s: State) {
    && (forall id :: id in s.notices ==> NoticeOk(s, id))
    && (forall i :: 0 <= i < |s.grants| ==> GrantOk(s, s.grants[i]))
    && Spaced(s.grants)
    && OnePerNotice(s.grants)
    && (forall i :: 0 <= i < |s.handed| ==> HandedOk(s, s.handed[i]))
    && HandedOnce(s.handed)
  }

  ghost predicate NoticeOk(s: State, id: NoticeId)
    requires id in s.notices
  {
    var n := s.notices[id];
    && n.content.id == id && id in s.ids && n.content.created <= s.clock
    && (n.status == Draft <==> n.approval.None?)
    && (n.status == Draft ==> n.expires == n.content.created + DAY)
    && n.revision == (match n.status case Draft => 1 case Queued => 2 case Delivering => 3 case _ => 4)
    && (n.approval.Some? ==>
          && n.approval.value.digest == n.content && n.approval.value.expires == n.expires
          && n.approval.value.issued < n.content.created + DAY
          && n.expires == n.approval.value.issued + APPROVED_FOR
          && (n.approval.value.consumed.None? <==> n.status == Queued)
          && Grant(id, n.content.device, n.content, n.approval.value.issued) in s.grants)
  }

  /** A recorded grant is that of its record, or its record is gone and the grant is days old. */
  ghost predicate GrantOk(s: State, g: Grant) {
    && g.id in s.ids && g.issued <= s.clock && g.digest.id == g.id && g.digest.device == g.device
    && (if g.id in s.notices then
          && s.notices[g.id].approval.Some? && s.notices[g.id].approval.value.issued == g.issued
          && s.notices[g.id].content == g.digest
        else g.issued + HOUR <= s.clock)
  }

  /** Grants for one device are at least an hour apart. */
  ghost predicate Spaced(grants: seq<Grant>) {
    forall i, j :: 0 <= i < j < |grants| && grants[i].device == grants[j].device
      ==> grants[i].issued + HOUR <= grants[j].issued
  }

  ghost predicate OnePerNotice(grants: seq<Grant>) {
    forall i, j :: 0 <= i < j < |grants| ==> grants[i].id != grants[j].id
  }

  ghost predicate HandedOk(s: State, x: Handed) {
    && (exists i :: 0 <= i < |s.grants| && s.grants[i].id == x.id && s.grants[i].digest == x.digest
                 && s.grants[i].issued <= x.at < s.grants[i].issued + APPROVED_FOR)
    && x.id in s.ids
    && (x.id in s.notices ==> s.notices[x.id].status != Draft && s.notices[x.id].status != Queued)
  }

  ghost predicate HandedOnce(handed: seq<Handed>) {
    forall i, j :: 0 <= i < j < |handed| ==> handed[i].id != handed[j].id
  }

  lemma WriteKeepsNotice(s: State, w: Write, id: NoticeId)
    requires Inv(s) && Enabled(s, w) && id in Effect(s, w).notices
    ensures NoticeOk(Effect(s, w), id)
  {
    hide Spaced, OnePerNotice, HandedOk, HandedOnce, GrantOk, RecentlyApproved;
    if id in s.notices {
      assert NoticeOk(s, id);
    }
  }

  lemma WriteKeepsGrant(s: State, w: Write, i: nat)
    requires Inv(s) && Enabled(s, w) && i < |Effect(s, w).grants|
    ensures GrantOk(Effect(s, w), Effect(s, w).grants[i])
  {
    hide Spaced, OnePerNotice, HandedOk, HandedOnce, RecentlyApproved;
    if i < |s.grants| {
      assert GrantOk(s, s.grants[i]);
      if s.grants[i].id in s.notices {
        assert NoticeOk(s, s.grants[i].id);
      }
    } else {
      assert NoticeOk(s, w.id);
    }
  }

  lemma WriteKeepsSpacing(s: State, w: Write)
    requires Inv(s) && Enabled(s, w)
    ensures Spaced(Effect(s, w).grants) && OnePerNotice(Effect(s, w).grants)
  {
    hide HandedOk, HandedOnce;
    if w.Queue? {
      assert NoticeOk(s, w.id);
      forall i | 0 <= i < |s.grants|
        ensures s.grants[i].id != w.id
        ensures s.grants[i].device == s.notices[w.id].content.device ==> s.grants[i].issued + HOUR <= s.clock
      {
        assert GrantOk(s, s.grants[i]);
      }
    }
  }

  lemma WriteKeepsHanded(s: State, w: Write)
    requires Inv(s) && Enabled(s, w)
    ensures var t := Effect(s, w); HandedOnce(t.handed) && forall i :: 0 <= i < |t.handed| ==> HandedOk(t, t.handed[i])
  {
    hide Spaced, OnePerNotice, GrantOk, RecentlyApproved;
    var t := Effect(s, w);
    forall i | 0 <= i < |s.handed| ensures HandedOk(t, s.handed[i]) {
      HandedStaysOk(s, w, i);
    }
    if w.Deliver? {
      NewlyHanded(s, w.id);
      forall i | 0 <= i < |s.handed| ensures s.handed[i].id != w.id {
        assert HandedOk(s, s.handed[i]);
      }
    }
  }

  lemma HandedStaysOk(s: State, w: Write, i: nat)
    requires Inv(s) && Enabled(s, w) && i < |s.handed|
    ensures HandedOk(Effect(s, w), s.handed[i])
  {
    hide Spaced, OnePerNotice, GrantOk, RecentlyApproved, NoticeOk;
    var x := s.handed[i];
    assert HandedOk(s, x);
    var k :| 0 <= k < |s.grants| && s.grants[k].id == x.id && s.grants[k].digest == x.digest
             && s.grants[k].issued <= x.at < s.grants[k].issued + APPROVED_FOR;
    assert Effect(s, w).grants[k] == s.grants[k];
  }

  lemma NewlyHanded(s: State, id: NoticeId)
    requires Inv(s) && Enabled(s, Deliver(id))
    ensures var t := Effect(s, Deliver(id)); HandedOk(t, t.handed[|s.handed|])
  {
    hide Spaced, OnePerNotice, RecentlyApproved;
    assert NoticeOk(s, id);
    var n := s.notices[id];
    var i :| 0 <= i < |s.grants| && s.grants[i] == Grant(id, n.content.device, n.content, n.approval.value.issued);
    assert GrantOk(s, s.grants[i]);
  }

  lemma WriteKeeps(s: State, w: Write)
    requires Inv(s) && Enabled(s, w)
    ensures Inv(Effect(s, w))
  {
    hide NoticeOk, GrantOk, HandedOk, Spaced, OnePerNotice, HandedOnce, Effect, Enabled;
    var t := Effect(s, w);
    forall id | id in t.notices ensures NoticeOk(t, id) {
      WriteKeepsNotice(s, w, id);
    }
    forall i | 0 <= i < |t.grants| ensures GrantOk(t, t.grants[i]) {
      WriteKeepsGrant(s, w, i);
    }
    WriteKeepsSpacing(s, w);
    WriteKeepsHanded(s, w);
  }

  // ---------- Histories ----------

  ghost predicate Next(s: State, t: State) {
    exists w :: Enabled(s, w) && t == Effect(s, w)
  }

  ghost predicate History(h: seq<State>) {
    h != [] && h[0] == EMPTY && forall i :: 0 <= i < |h| - 1 ==> Next(h[i], h[i + 1])
  }

  lemma {:induction false} EveryStateIsSound(h: seq<State>, i: nat)
    requires History(h) && i < |h|
    ensures Inv(h[i])
  {
    hide Inv, Effect, Enabled;
    if i == 0 {
      assert Inv(EMPTY) by { EmptyIsSound(); }
    } else {
      EveryStateIsSound(h, i - 1);
      assert Next(h[i - 1], h[i - 1 + 1]);
      var w :| Enabled(h[i - 1], w) && h[i] == Effect(h[i - 1], w);
      WriteKeeps(h[i - 1], w);
    }
  }

  lemma EmptyIsSound()
    ensures Inv(EMPTY)
  {
  }

  /** The two lists only grow, so what they say of the last state they say of the whole history. */
  lemma {:induction false} LogsGrow(h: seq<State>, i: nat, k: nat)
    requires History(h) && i <= k < |h|
    ensures h[i].grants <= h[k].grants && h[i].handed <= h[k].handed && h[i].clock <= h[k].clock
    decreases k
  {
    if i < k {
      LogsGrow(h, i, k - 1);
      assert Next(h[k - 1], h[k - 1 + 1]);
    }
  }

  /** A notification was queued between two states of a history. */
  ghost predicate QueuedAt(h: seq<State>, i: nat, g: Grant) {
    i + 1 < |h| && h[i + 1].grants == h[i].grants + [g]
  }

  /** Any two approvals ever queued for one device are at least an hour apart, however much was forgotten between them. */
  lemma ApprovalsAreAnHourApart(h: seq<State>, i: nat, k: nat, a: Grant, b: Grant)
    requires History(h) && i < k && QueuedAt(h, i, a) && QueuedAt(h, k, b) && a.device == b.device
    ensures a.issued + 3600000 <= b.issued
  {
    hide NoticeOk, GrantOk, HandedOk, OnePerNotice, HandedOnce, Next;
    LogsGrow(h, i + 1, k);
    EveryStateIsSound(h, k + 1);
    var grants := h[k + 1].grants;
    assert Spaced(grants);
    assert grants[|h[i].grants|] == a && grants[|h[k].grants|] == b;
  }

  /** Whatever is handed out was queued with that very digest, at most ten minutes before, and only once. */
  lemma HandedAsApproved(h: seq<State>, i: nat, x: Handed)
    requires History(h) && i + 1 < |h| && h[i + 1].handed == h[i].handed + [x]
    ensures exists k :: 0 <= k < |h[i].grants| && h[i].grants[k].id == x.id && h[i].grants[k].digest == x.digest
                     && h[i].grants[k].issued <= x.at < h[i].grants[k].issued + 600000
    ensures forall j :: 0 <= j < |h[i].handed| ==> h[i].handed[j].id != x.id
  {
    EveryStateIsSound(h, i + 1);
    var t := h[i + 1];
    assert t.handed[|h[i].handed|] == x && HandedOk(t, x);
    assert Next(h[i], h[i + 1]);
    assert t.grants == h[i].grants;
    forall j | 0 <= j < |h[i].handed| ensures h[i].handed[j].id != x.id {
      assert t.handed[j] == h[i].handed[j];
    }
  }

  // ---------- What the calls decide ----------

  datatype Problem = AccessDenied | NotFound | RevisionChanged | ConsentRequired | SourceDenied | RateLimited | ScopeDenied
                   | StorageFailure

  function Remembered(s: State): State {
    s.(notices := map id | id in s.notices && !Old(s.notices[id], s.clock) :: s.notices[id],
       approvals := s.approvals - (set id | id in s.notices && Old(s.notices[id], s.clock)))
  }

  const FRESH: nat := 30000

  predicate Consents(consents: map<DeviceId, Consent>, device: DeviceId, actor: Actor, now: Time) {
    && device in consents
    && var c := consents[device];
    c.actor == actor && c.enabled && c.capable && c.at >= now - FRESH
  }

  /** What an approver names, and what the world answers while the approval is decided. */
  datatype ApprovalRequest = ApprovalRequest(id: NoticeId, revision: nat, digest: Content)
  datatype World = World(owned: bool, online: bool, sourceAllowed: bool)

  /** The problem with an approval, in the order the checks are made. */
  function ApprovalProblem(s: State, actor: Actor, body: ApprovalRequest, world: World): Option<Problem> {
    if body.id !in s.notices then Some(NotFound)
    else
      var n := s.notices[body.id];
      if !world.owned then Some(AccessDenied)
      else if n.content.id != body.id || n.content.actor != actor || n.status != Draft || n.revision != body.revision
           || n.content != body.digest || n.expires <= s.clock
      then Some(RevisionChanged)
      else if !world.online || !Consents(s.consents, n.content.device, actor, s.clock) then Some(ConsentRequired)
      else if !world.sourceAllowed then Some(SourceDenied)
      else if RecentlyApproved(Remembered(s).notices, n.content.device, s.clock) then Some(RateLimited)
      else if body.id in s.approvals then Some(StorageFailure)
      else None
  }

  /** Forgetting old records never lifts the limit: the answer is as if all of them were still there. */
  lemma ForgettingKeepsTheLimit(s: State, device: DeviceId)
    requires Inv(s)
    ensures RecentlyApproved(Remembered(s).notices, device, s.clock) <==> RecentlyApproved(s.notices, device, s.clock)
    ensures RecentlyApproved(s.notices, device, s.clock)
       <==> exists i :: 0 <= i < |s.grants| && s.grants[i].device == device && s.grants[i].issued > s.clock - HOUR
  {
    hide Spaced, OnePerNotice, HandedOk, HandedOnce;
    forall i | 0 <= i < |s.grants| && s.grants[i].device == device && s.grants[i].issued > s.clock - HOUR
      ensures RecentlyApproved(Remembered(s).notices, device, s.clock)
    {
      assert GrantOk(s, s.grants[i]) && NoticeOk(s, s.grants[i].id);
      assert s.grants[i].id in Remembered(s).notices;
    }
    forall id | id in s.notices && s.notices[id].content.device == device && s.notices[id].approval.Some?
                && s.notices[id].approval.value.issued > s.clock - HOUR
      ensures exists i :: 0 <= i < |s.grants| && s.grants[i].device == device && s.grants[i].issued > s.clock - HOUR
    {
      assert NoticeOk(s, id);
      var g := Grant(id, device, s.notices[id].content, s.notices[id].approval.value.issued);
      var i :| 0 <= i < |s.grants| && s.grants[i] == g;
    }
  }

  /** An approval file outlives every state in which its record is still there. */
  lemma {:induction false} ApprovalFileStays(h: seq<State>, i: nat, k: nat, id: NoticeId)
    requires History(h) && i <= k < |h| && id in h[i].notices && id in h[i].approvals
    ensures id in h[k].ids && (id in h[k].notices ==> id in h[k].approvals)
    decreases k
  {
    hide Inv, NoticeOk;
    if i < k {
      ApprovalFileStays(h, i, k - 1, id);
      assert Next(h[k - 1], h[k - 1 + 1]);
    } else {
      EveryStateIsSound(h, i);
      KnownId(h[i], id);
    }
  }

  lemma KnownId(s: State, id: NoticeId)
    requires Inv(s) && id in s.notices
    ensures id in s.ids
  {
    assert NoticeOk(s, id);
  }

  /** A crash between the two writes of an approval leaves a draft whose every later approval is refused, by anyone. */
  lemma HalfApprovedIsStuck(h: seq<State>, i: nat, k: nat, actor: Actor, body: ApprovalRequest, world: World)
    requires History(h) && i <= k < |h| && body.id in h[i].notices && body.id in h[i].approvals
    ensures ApprovalProblem(h[k], actor, body, world).Some?
  {
    hide History;
    ApprovalFileStays(h, i, k, body.id);
  }

  /** An approval has no problem exactly when all of this holds; each refusal has its own cause. */
  lemma ApprovedForCause(s: State, actor: Actor, body: ApprovalRequest, world: World)
    requires Inv(s)
    ensures ApprovalProblem(s, actor, body, world).None? <==>
              && body.id in s.notices && world.owned && world.online && world.sourceAllowed
              && IsTheDraft(s, actor, body)
              && ListensNow(s, s.notices[body.id].content.device, actor)
              && !GrantedWithinTheHour(s, s.notices[body.id].content.device)
              && body.id !in s.approvals
    ensures match ApprovalProblem(s, actor, body, world)
            case None => true
            case Some(NotFound) => body.id !in s.notices
            case Some(AccessDenied) => !world.owned
            case Some(RevisionChanged) => body.id in s.notices && !IsTheDraft(s, actor, body)
            case Some(ConsentRequired) =>
              body.id in s.notices && (!world.online || !ListensNow(s, s.notices[body.id].content.device, actor))
            case Some(SourceDenied) => !world.sourceAllowed
            case Some(RateLimited) =>
              body.id in s.notices && GrantedWithinTheHour(s, s.notices[body.id].content.device)
            case Some(StorageFailure) => body.id in s.approvals
            case Some(ScopeDenied) => false
  {
    hide NoticeOk, Remembered, RecentlyApproved;
    if body.id in s.notices {
      assert s.notices[body.id].content.id == body.id by { NamedByItsId(s, body.id); }
      ForgettingKeepsTheLimit(s, s.notices[body.id].content.device);
    }
  }

  lemma NamedByItsId(s: State, id: NoticeId)
    requires Inv(s) && id in s.notices
    ensures s.notices[id].content.id == id
  {
    assert NoticeOk(s, id);
  }

  /** What the actor approved is its own unexpired draft as it stands. */
  ghost predicate IsTheDraft(s: State, actor: Actor, body: ApprovalRequest)
    requires body.id in s.notices
  {
    var n := s.notices[body.id];
    && n.content.actor == actor && n.status == Draft && n.revision == body.revision && n.content == body.digest
    && s.clock < n.expires
  }

  /** Within the last half minute the device said, for this actor, that it can and will show notifications. */
  ghost predicate ListensNow(s: State, device: DeviceId, actor: Actor) {
    && device in s.consents && s.consents[device].actor == actor
    && s.consents[device].enabled && s.consents[device].capable && s.clock <= s.consents[device].at + 30000
  }

  ghost predicate GrantedWithinTheHour(s: State, device: DeviceId) {
    exists i :: 0 <= i < |s.grants| && s.grants[i].device == device && s.clock < s.grants[i].issued + 3600000
  }

  /** Reading the records forgets exactly those created more than a week ago, with their approval files. */
  lemma ForgottenAfterAWeek(s: State, id: NoticeId)
    ensures id in Remembered(s).notices <==> id in s.notices && s.clock <= s.notices[id].content.created + 604800000
    ensures id in Remembered(s).notices ==> Remembered(s).notices[id] == s.notices[id]
    ensures id in Remembered(s).approvals <==>
              id in s.approvals && (id in s.notices ==> s.clock <= s.notices[id].content.created + 604800000)
  {
  }

  /** The revision says how far a notification got, so that a stale one is never approved; its content never changes. */
  lemma {:induction false} RevisionTellsTheStatus(h: seq<State>, i: nat, k: nat, id: NoticeId)
    requires History(h) && i <= k < |h| && id in h[i].notices && id in h[k].notices
    ensures h[k].notices[id].revision == match h[k].notices[id].status
                                         case Draft => 1
                                         case Queued => 2
                                         case Delivering => 3
                                         case _ => 4
    ensures h[i].notices[id].revision <= h[k].notices[id].revision && h[i].notices[id].content == h[k].notices[id].content
    ensures h[i].notices[id].revision == h[k].notices[id].revision ==> h[i].notices[id] == h[k].notices[id]
    decreases k
  {
    hide Inv, Effect, Enabled;
    EveryStateIsSound(h, k);
    RevisionOf(h[k], id);
    if i < k {
      assert Next(h[k - 1], h[k - 1 + 1]);
      var w :| Enabled(h[k - 1], w) && h[k] == Effect(h[k - 1], w);
      EveryStateIsSound(h, i);
      KnownId(h[i], id);
      IdsGrow(h, i, k - 1);
      StillThere(h[k - 1], w, id);
      RevisionTellsTheStatus(h, i, k - 1, id);
    }
  }

  lemma RevisionOf(s: State, id: NoticeId)
    requires Inv(s) && id in s.notices
    ensures s.notices[id].revision == match s.notices[id].status case Draft => 1 case Queued => 2 case Delivering => 3 case _ => 4
  {
    assert NoticeOk(s, id);
  }

  /** Ids are never given out again, so a record is gone for good or changes to its next revision. */
  lemma StillThere(s: State, w: Write, id: NoticeId)
    requires Enabled(s, w) && id in s.ids && id in Effect(s, w).notices
    ensures id in s.notices
    ensures var n, m := s.notices[id], Effect(s, w).notices[id]; n == m || (m.revision == n.revision + 1 && m.content == n.content)
  {
  }

  lemma {:induction false} IdsGrow(h: seq<State>, i: nat, k: nat)
    requires History(h) && i <= k < |h|
    ensures h[i].ids <= h[k].ids
    decreases k
  {
    if i < k {
      IdsGrow(h, i, k - 1);
      assert Next(h[k - 1], h[k - 1 + 1]);
    }
  }
}
