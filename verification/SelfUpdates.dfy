/**
 Any number of callers agree on one self-update request per candidate without a lock: each links its
 note if none is there, reads back whichever note won, and links that note's request.
 */
module SelfUpdates {
  import opened Basics

  type CandidateId = nat
  type Change = nat
  type CallId = nat

  datatype Candidate = Candidate(id: CandidateId, manifest: Digest, previous: Digest, expires: Time)
  datatype Request = Request(id: nat, candidate: CandidateId, manifest: Digest, previous: Digest, issued: Time)
  datatype Note = Note(request: Request, change: Change)

  /** The files all callers share. */
  datatype Files = Files(catalog: Candidate, notes: map<CandidateId, Note>, requests: map<CandidateId, Request>)

  datatype Problem = NoteIdentityMismatch | ExpiredOrChanged | NoteChanged

  /** How far a call has got: what it has read, or is about to link. */
  datatype Stage =
    | Started
    | SawCatalog(candidate: Candidate)
    | SawRequest(candidate: Candidate, request: Option<Request>)
    | Drafted(draft: Request)
    | Noted(draft: Request)
    | Chose(chosen: Request)
    | Linked(chosen: Request)
    | SawCatalogAgain(candidate: Candidate, chosen: Request)
    | SawRequestAgain(candidate: Candidate, request: Option<Request>, chosen: Request)
    | Returned(request: Option<Request>)
    | Failed(why: Problem)

  datatype Call = Call(candidate: CandidateId, manifest: Digest, change: Change, stage: Stage)

  function Lookup<K, V>(files: map<K, V>, key: K): Option<V> {
    if key in files then Some(files[key]) else None
  }

  /** Creates the file unless it exists. */
  function Link<K, V>(files: map<K, V>, key: K, value: V): map<K, V> {
    if key in files then files else files[key := value]
  }

  /** The check at the end of reading the state: a note must belong to the candidate and to the request. */
  predicate Mismatched(note: Option<Note>, candidate: Candidate, request: Option<Request>) {
    note.Some?
    && (|| note.value.request.candidate != candidate.id
        || note.value.request.manifest != candidate.manifest
        || note.value.request.previous != candidate.previous
        || (request.Some? && note.value.request != request.value))
  }

  /** One access of a call to the shared files. */
  function Step(f: Files, call: Call, id: nat, now: Time): (Files, Call) {
    match call.stage
    case Started => (f, call.(stage := SawCatalog(f.catalog)))
    case SawCatalog(x) => (f, call.(stage := SawRequest(x, Lookup(f.requests, x.id))))
    case SawRequest(x, request) =>
      var note := Lookup(f.notes, x.id);
      (f, call.(stage :=
            if Mismatched(note, x, request) then Failed(NoteIdentityMismatch)
            else if x.id != call.candidate || x.manifest != call.manifest || x.expires <= now then Failed(ExpiredOrChanged)
            else if request.None? then Drafted(Request(id, x.id, x.manifest, x.previous, now))
            else if note.None? || note.value.change != call.change then Failed(NoteChanged)
            else Returned(request)))
    case Drafted(draft) =>
      (f.(notes := Link(f.notes, call.candidate, Note(draft, call.change))), call.(stage := Noted(draft)))
    case Noted(_) =>
      var note := Lookup(f.notes, call.candidate);
      (f, call.(stage :=
            if note.None? || note.value.change != call.change || note.value.request.manifest != call.manifest
            then Failed(NoteChanged) else Chose(note.value.request)))
    case Chose(chosen) =>
      (f.(requests := Link(f.requests, call.candidate, chosen)), call.(stage := Linked(chosen)))
    case Linked(chosen) => (f, call.(stage := SawCatalogAgain(f.catalog, chosen)))
    case SawCatalogAgain(x, chosen) => (f, call.(stage := SawRequestAgain(x, Lookup(f.requests, x.id), chosen)))
    case SawRequestAgain(x, request, _) =>
      (f, call.(stage := if Mismatched(Lookup(f.notes, x.id), x, request) then Failed(NoteIdentityMismatch)
                         else Returned(request)))
    case Returned(_) => (f, call)
    case Failed(_) => (f, call)
  }

  // ---------- Many callers ----------

  /**
   A call that crashed is one that takes no further step. `sealed` holds every catalog entry so far and
   `legacy` the requests that an older release left without a note; both are history variables.
   */
  datatype System = System(
    files: Files, calls: map<CallId, Call>, sealed: set<Candidate>, legacy: map<CandidateId, Request>)

  ghost predicate Initial(s: System) {
    && s.calls == map[] && s.files.notes == map[] && s.sealed == {s.files.catalog}
    && s.files.requests == s.legacy && forall c :: c in s.legacy ==> s.legacy[c].candidate == c
  }

  ghost predicate SameIdentity(x: Candidate, y: Candidate) {
    x.id == y.id ==> x.manifest == y.manifest && x.previous == y.previous
  }

  ghost predicate Next(s: System, t: System) {
    || (exists k: CallId, call: Call :: k !in s.calls && call.stage == Started && t == s.(calls := s.calls[k := call]))
    || (exists k, id, now :: Advances(s, t, k, id, now))
    || exists x :: Seals(s, t, x)
  }

  ghost predicate Advances(s: System, t: System, k: CallId, id: nat, now: Time) {
    && k in s.calls
    && var (files, call) := Step(s.files, s.calls[k], id, now);
    t == s.(files := files, calls := s.calls[k := call])
  }

  /** The operator seals another candidate; an id always stands for the same manifests. */
  ghost predicate Seals(s: System, t: System, x: Candidate) {
    && (forall y :: y in s.sealed ==> SameIdentity(x, y))
    && t == s.(files := s.files.(catalog := x), sealed := s.sealed + {x})
  }

  ghost predicate History(h: seq<System>) {
    h != [] && Initial(h[0]) && forall i :: 0 <= i < |h| - 1 ==> Next(h[i], h[i + 1])
  }

  // ---------- What every step keeps ----------

  ghost predicate Inv(s: System) {
    && s.files.catalog in s.sealed
    && (forall x, y :: x in s.sealed && y in s.sealed ==> SameIdentity(x, y))
    && (forall c :: c in s.files.notes ==> NoteOk(s, c))
    && (forall c :: c in s.files.requests ==> RequestOk(s, c))
    && (forall c :: c in s.legacy ==> c in s.files.requests)
    && forall k :: k in s.calls ==> CallOk(s, s.calls[k])
  }

  ghost predicate NoteOk(s: System, c: CandidateId)
    requires c in s.files.notes
  {
    c !in s.legacy && IdentityOf(s, c, s.files.notes[c].request)
  }

  ghost predicate IdentityOf(s: System, c: CandidateId, request: Request) {
    request.candidate == c
    && exists x :: x in s.sealed && x.id == c && request.manifest == x.manifest && request.previous == x.previous
  }

  /** The request is the one in the note, or an old one without a note. */
  ghost predicate RequestOk(s: System, c: CandidateId)
    requires c in s.files.requests
  {
    s.files.requests[c].candidate == c
    && if c in s.legacy then s.files.requests[c] == s.legacy[c] && c !in s.files.notes
    else c in s.files.notes && s.files.requests[c] == s.files.notes[c].request
  }

  ghost predicate Agreed(s: System, call: Call, chosen: Request) {
    && call.candidate in s.files.notes
    && s.files.notes[call.candidate] == Note(chosen, call.change)
  }

  ghost predicate Bound(s: System, call: Call, chosen: Request) {
    Agreed(s, call, chosen) && call.candidate in s.files.requests && s.files.requests[call.candidate] == chosen
  }

  ghost predicate CallOk(s: System, call: Call) {
    match call.stage
    case Started => true
    case SawCatalog(x) => x in s.sealed
    case SawRequest(x, request) =>
      x in s.sealed && if request.Some? then Lookup(s.files.requests, x.id) == request else x.id !in s.legacy
    case Drafted(draft) => call.candidate !in s.legacy && IdentityOf(s, call.candidate, draft)
    case Noted(_) => call.candidate !in s.legacy && call.candidate in s.files.notes
    case Chose(chosen) => call.candidate !in s.legacy && Agreed(s, call, chosen)
    case Linked(chosen) => Bound(s, call, chosen)
    case SawCatalogAgain(x, chosen) => Bound(s, call, chosen) && x in s.sealed
    case SawRequestAgain(x, request, chosen) =>
      && Bound(s, call, chosen) && x in s.sealed
      && (request.Some? ==> Lookup(s.files.requests, x.id) == request)
      && (x.id == call.candidate ==> request == Some(chosen))
    case Returned(request) =>
      || (request.Some? && Bound(s, call, request.value))
      || ((request.Some? ==> request.value.candidate != call.candidate)
          && exists x :: x in s.sealed && x.id != call.candidate)
    case Failed(why) => why != NoteIdentityMismatch
  }

  // What only grows keeps every fact the calls rely on.
  ghost predicate Grows(s: System, t: System) {
    && s.sealed <= t.sealed && t.legacy == s.legacy
    && (forall c :: c in s.files.notes ==> c in t.files.notes && t.files.notes[c] == s.files.notes[c])
    && (forall c :: c in s.files.requests ==> c in t.files.requests && t.files.requests[c] == s.files.requests[c])
  }

  lemma CallStaysOk(s: System, t: System, call: Call)
    requires Grows(s, t) && CallOk(s, call)
    ensures CallOk(t, call)
  {
  }

  lemma StepGrows(s: System, t: System, k: CallId, id: nat, now: Time)
    requires Advances(s, t, k, id, now)
    ensures Grows(s, t)
  {
  }

  lemma StepKeepsFiles(s: System, t: System, k: CallId, id: nat, now: Time)
    requires Inv(s) && Advances(s, t, k, id, now)
    ensures forall c :: c in t.files.notes ==> NoteOk(t, c)
    ensures forall c :: c in t.files.requests ==> RequestOk(t, c)
    ensures forall c :: c in t.legacy ==> c in t.files.requests
    ensures t.files.catalog == s.files.catalog
  {
    assert CallOk(s, s.calls[k]);
    StepGrows(s, t, k, id, now);
    forall c | c in t.files.notes ensures NoteOk(t, c) {
      if c in s.files.notes {
        assert NoteOk(s, c);
      }
    }
    forall c | c in t.files.requests ensures RequestOk(t, c) {
      if c in s.files.requests {
        assert RequestOk(s, c);
      } else {
        assert NoteOk(s, c);
      }
    }
  }

  lemma StepKeepsCall(s: System, t: System, k: CallId, id: nat, now: Time)
    requires Inv(s) && Advances(s, t, k, id, now)
    ensures CallOk(t, t.calls[k])
  {
    var call := s.calls[k];
    assert CallOk(s, call);
    match call.stage
    case SawCatalog(x) =>
    case SawRequest(x, request) =>
      NoMismatch(s, x, request);
    case Drafted(_) =>
    case Noted(_) =>
      assert NoteOk(s, call.candidate);
    case Chose(_) =>
      assert NoteOk(s, call.candidate);
    case SawCatalogAgain(x, _) =>
    case SawRequestAgain(x, request, _) =>
      NoMismatch(s, x, request);
    case _ =>
  }

  /** Reading the state never finds a note that belongs to something else. */
  lemma NoMismatch(s: System, x: Candidate, request: Option<Request>)
    requires Inv(s) && x in s.sealed && (request.Some? ==> Lookup(s.files.requests, x.id) == request)
    ensures !Mismatched(Lookup(s.files.notes, x.id), x, request)
  {
    if x.id in s.files.notes {
      assert NoteOk(s, x.id);
      assert request.Some? ==> RequestOk(s, x.id);
    }
  }

  lemma NextKeeps(s: System, t: System)
    requires Inv(s) && Next(s, t)
    ensures Inv(t) && Grows(s, t)
  {
    hide CallOk, NoteOk, RequestOk, Step;
    if k, id, now :| Advances(s, t, k, id, now) {
      StepGrows(s, t, k, id, now);
      StepKeepsFiles(s, t, k, id, now);
      StepKeepsCall(s, t, k, id, now);
    } else if x :| Seals(s, t, x) {
      SealKeepsFiles(s, t, x);
    } else {
      BeginKeepsFiles(s, t);
    }
    assert Grows(s, t);
    forall k | k in t.calls ensures CallOk(t, t.calls[k]) {
      if k in s.calls && t.calls[k] == s.calls[k] {
        CallStaysOk(s, t, s.calls[k]);
      } else {
        NewCallOk(s, t, k);
      }
    }
  }

  lemma NewCallOk(s: System, t: System, k: CallId)
    requires Inv(s) && Next(s, t) && k in t.calls && (k !in s.calls || t.calls[k] != s.calls[k])
    ensures CallOk(t, t.calls[k])
  {
    hide Inv, CallOk, Step;
    if j, id, now :| Advances(s, t, j, id, now) {
      StepKeepsCall(s, t, j, id, now);
    } else {
      StartedIsOk(t, t.calls[k]);
    }
  }

  lemma StartedIsOk(s: System, call: Call)
    requires call.stage == Started
    ensures CallOk(s, call)
  {
  }

  lemma SealKeepsFiles(s: System, t: System, x: Candidate)
    requires Inv(s) && Seals(s, t, x)
    ensures forall c :: c in t.files.notes ==> NoteOk(t, c)
    ensures forall c :: c in t.files.requests ==> RequestOk(t, c)
  {
    assert forall c :: c in s.files.notes ==> NoteOk(s, c);
    assert forall c :: c in s.files.requests ==> RequestOk(s, c);
  }

  lemma BeginKeepsFiles(s: System, t: System)
    requires Inv(s) && t == s.(calls := t.calls)
    ensures forall c :: c in t.files.notes ==> NoteOk(t, c)
    ensures forall c :: c in t.files.requests ==> RequestOk(t, c)
  {
    assert forall c :: c in s.files.notes ==> NoteOk(s, c);
    assert forall c :: c in s.files.requests ==> RequestOk(s, c);
  }

  // ---------- What every history guarantees ----------

  lemma {:induction false} EveryStateIsSound(h: seq<System>, i: nat)
    requires History(h) && i < |h|
    ensures Inv(h[i])
  {
    hide Inv, Next;
    if i == 0 {
      InitiallySound(h[0]);
    } else {
      EveryStateIsSound(h, i - 1);
      assert Next(h[i - 1], h[i - 1 + 1]);
      NextKeeps(h[i - 1], h[i]);
    }
  }

  lemma InitiallySound(s: System)
    requires Initial(s)
    ensures Inv(s)
  {
  }

  lemma {:induction false} NothingIsReplaced(h: seq<System>, i: nat, k: nat)
    requires History(h) && i <= k < |h|
    ensures Grows(h[i], h[k])
    decreases k
  {
    hide Inv, Next;
    if i < k {
      NothingIsReplaced(h, i, k - 1);
      EveryStateIsSound(h, k - 1);
      assert Next(h[k - 1], h[k - 1 + 1]);
      NextKeeps(h[k - 1], h[k]);
    }
  }

  /** Call k has returned this request for the candidate it was made for. */
  ghost predicate Answered(s: System, k: CallId, request: Request) {
    k in s.calls && s.calls[k].stage == Returned(Some(request)) && request.candidate == s.calls[k].candidate
  }

  /**
   Whatever their interleaving and whoever crashed, all calls answered for one candidate got the same
   request, with the same change details, and the candidate's files say so.
   */
  lemma AllAnswersAgree(h: seq<System>, i: nat, k: nat, a: CallId, b: CallId, r: Request, q: Request)
    requires History(h) && i <= k < |h| && Answered(h[i], a, r) && Answered(h[k], b, q) && r.candidate == q.candidate
    ensures r == q && h[i].calls[a].change == h[k].calls[b].change
    ensures q.candidate in h[k].files.requests && h[k].files.requests[q.candidate] == q
    ensures q.candidate in h[k].files.notes && h[k].files.notes[q.candidate] == Note(q, h[k].calls[b].change)
  {
    EveryStateIsSound(h, i);
    EveryStateIsSound(h, k);
    NothingIsReplaced(h, i, k);
    assert CallOk(h[i], h[i].calls[a]) && CallOk(h[k], h[k].calls[b]);
  }

  /** Once a note is there, a call with other change details never gets an answer for its candidate. */
  lemma OtherDetailsNeverSucceed(h: seq<System>, i: nat, k: nat, b: CallId, q: Request)
    requires History(h) && i <= k < |h| && b in h[k].calls
    requires h[k].calls[b].candidate in h[i].files.notes
    requires h[i].files.notes[h[k].calls[b].candidate].change != h[k].calls[b].change
    ensures !Answered(h[k], b, q)
  {
    EveryStateIsSound(h, k);
    NothingIsReplaced(h, i, k);
    assert CallOk(h[k], h[k].calls[b]);
  }

  /** At most one request is ever bound to a candidate, and it is the one its note names. */
  lemma OneRequestPerCandidate(h: seq<System>, i: nat, k: nat, c: CandidateId)
    requires History(h) && i <= k < |h| && c in h[i].files.requests
    ensures c in h[k].files.requests && h[k].files.requests[c] == h[i].files.requests[c]
    ensures if c in h[i].legacy then c !in h[k].files.notes
            else c in h[i].files.notes && h[i].files.notes[c].request == h[i].files.requests[c]
  {
    EveryStateIsSound(h, i);
    EveryStateIsSound(h, k);
    NothingIsReplaced(h, i, k);
    assert RequestOk(h[i], c) && RequestOk(h[k], c);
  }

  /** No call ever sees a note that belongs to another candidate or request. */
  lemma IdentityNeverMismatches(h: seq<System>, i: nat, k: CallId)
    requires History(h) && i < |h| && k in h[i].calls
    ensures h[i].calls[k].stage != Failed(NoteIdentityMismatch)
  {
    EveryStateIsSound(h, i);
    assert CallOk(h[i], h[i].calls[k]);
  }

  /**
   The last read decides what a call that linked its request answers: its own request exactly when the
   catalog it reads still names its candidate, and otherwise another candidate's request or none.
   */
  lemma LastReadDecides(h: seq<System>, i: nat, k: CallId, id: nat, now: Time)
    requires History(h) && i < |h| && k in h[i].calls && h[i].calls[k].stage.SawRequestAgain?
    ensures var call := h[i].calls[k];
            var after := Step(h[i].files, call, id, now).1;
            && after.stage == Returned(call.stage.request)
            && (call.stage.request == Some(call.stage.chosen) <==> call.stage.candidate.id == call.candidate)
  {
    var s, call := h[i], h[i].calls[k];
    EveryStateIsSound(h, i);
    assert CallOk(s, call);
    NoMismatch(s, call.stage.candidate, call.stage.request);
    if call.stage.request.Some? {
      assert RequestOk(s, call.stage.candidate.id) && RequestOk(s, call.candidate);
    }
  }

  // A call that is overtaken by a new catalog entry between linking its request and its last reads.

  const OLD_ENTRY := Candidate(1, 11, 10, 100)
  const NEW_ENTRY := Candidate(2, 12, 11, 100)
  const ITS_REQUEST := Request(7, 1, 11, 10, 0)

  function Overtaken(catalog: Candidate, noted: bool, linked: bool, stage: Stage): System {
    System(Files(catalog, if noted then map[1 := Note(ITS_REQUEST, 5)] else map[], if linked then map[1 := ITS_REQUEST] else map[]),
           map[0 := Call(1, 11, 5, stage)], if catalog == NEW_ENTRY then {OLD_ENTRY, NEW_ENTRY} else {OLD_ENTRY}, map[])
  }

  lemma Accesses(s: System, t: System)
    requires 0 in s.calls && 0 in t.calls && t.calls == s.calls[0 := t.calls[0]]
    requires Step(s.files, s.calls[0], 7, 0) == (t.files, t.calls[0])
    requires t.sealed == s.sealed && t.legacy == s.legacy
    ensures Next(s, t)
  {
    assert Advances(s, t, 0, 7, 0);
  }

  lemma Longer(h: seq<System>, t: System)
    requires History(h) && Next(h[|h| - 1], t)
    ensures History(h + [t])
  {
    hide Next;
  }

  lemma LeavesItsNote() returns (h: seq<System>)
    ensures History(h) && h[|h| - 1] == Overtaken(OLD_ENTRY, true, false, Noted(ITS_REQUEST))
  {
    var s0 := System(Files(OLD_ENTRY, map[], map[]), map[], {OLD_ENTRY}, map[]);
    var s1 := Overtaken(OLD_ENTRY, false, false, Started);
    var s2 := Overtaken(OLD_ENTRY, false, false, SawCatalog(OLD_ENTRY));
    var s3 := Overtaken(OLD_ENTRY, false, false, SawRequest(OLD_ENTRY, None));
    var s4 := Overtaken(OLD_ENTRY, false, false, Drafted(ITS_REQUEST));
    var s5 := Overtaken(OLD_ENTRY, true, false, Noted(ITS_REQUEST));
    assert Next(s0, s1) by {
      assert s1 == s0.(calls := s0.calls[0 := Call(1, 11, 5, Started)]);
    }
    Accesses(s1, s2);
    Accesses(s2, s3);
    Accesses(s3, s4);
    Accesses(s4, s5);
    h := [s0, s1, s2, s3, s4, s5];
    hide Next, Overtaken;
    assert forall i :: 0 <= i < |h| - 1 ==> Next(h[i], h[i + 1]);
  }

  lemma BindsItsRequest() returns (h: seq<System>)
    ensures History(h) && h[|h| - 1] == Overtaken(OLD_ENTRY, true, true, Linked(ITS_REQUEST))
  {
    var s5 := Overtaken(OLD_ENTRY, true, false, Noted(ITS_REQUEST));
    var s6 := Overtaken(OLD_ENTRY, true, false, Chose(ITS_REQUEST));
    var s7 := Overtaken(OLD_ENTRY, true, true, Linked(ITS_REQUEST));
    h := LeavesItsNote();
    Accesses(s5, s6);
    Longer(h, s6);
    Accesses(s6, s7);
    Longer(h + [s6], s7);
    h := h + [s6] + [s7];
  }

  /** It does happen: the call has bound its request, and answers that there is none. */
  lemma OvertakenCallAnswersNothing() returns (h: seq<System>)
    ensures History(h) && 0 in h[|h| - 1].calls && h[|h| - 1].calls[0].candidate == 1
    ensures h[|h| - 1].files.requests == map[1 := ITS_REQUEST]
    ensures h[|h| - 1].calls[0].stage == Returned(None)
  {
    var s7 := Overtaken(OLD_ENTRY, true, true, Linked(ITS_REQUEST));
    var s8 := Overtaken(NEW_ENTRY, true, true, Linked(ITS_REQUEST));
    var s9 := Overtaken(NEW_ENTRY, true, true, SawCatalogAgain(NEW_ENTRY, ITS_REQUEST));
    var s10 := Overtaken(NEW_ENTRY, true, true, SawRequestAgain(NEW_ENTRY, None, ITS_REQUEST));
    var s11 := Overtaken(NEW_ENTRY, true, true, Returned(None));
    h := BindsItsRequest();
    assert Seals(s7, s8, NEW_ENTRY);
    Longer(h, s8);
    Accesses(s8, s9);
    Longer(h + [s8], s9);
    Accesses(s9, s10);
    Longer(h + [s8] + [s9], s10);
    Accesses(s10, s11);
    Longer(h + [s8] + [s9] + [s10], s11);
    h := h + [s8] + [s9] + [s10] + [s11];
  }

  /** So with one candidate in the catalog throughout, every call that returns is answered. */
  lemma OneCandidateAlwaysAnswers(h: seq<System>, i: nat, k: CallId, c: CandidateId)
    requires History(h) && i < |h| && (forall x :: x in h[i].sealed ==> x.id == c)
    requires k in h[i].calls && h[i].calls[k].stage.Returned? && h[i].calls[k].candidate == c
    ensures h[i].calls[k].stage.request.Some? && Answered(h[i], k, h[i].calls[k].stage.request.value)
  {
    EveryStateIsSound(h, i);
    assert CallOk(h[i], h[i].calls[k]);
    assert c in h[i].files.requests && RequestOk(h[i], c);
  }

  // ---------- A call on its own ----------

  function Left(call: Call): nat {
    match call.stage
    case Started => 9
    case SawCatalog(_) => 8
    case SawRequest(_, _) => 7
    case Drafted(_) => 6
    case Noted(_) => 5
    case Chose(_) => 4
    case Linked(_) => 3
    case SawCatalogAgain(_, _) => 2
    case SawRequestAgain(_, _, _) => 1
    case Returned(_) => 0
    case Failed(_) => 0
  }

  /** Every step of a call brings it nearer its end, whatever the others do: no call runs for more than nine steps. */
  lemma StepsRunOut(f: Files, call: Call, id: nat, now: Time)
    ensures Left(call) > 0 ==> Left(Step(f, call, id, now).1) < Left(call)
    ensures Left(call) == 0 ==> Step(f, call, id, now) == (f, call)
  {
  }

  function Alone(f: Files, call: Call, id: nat, now: Time): (Files, Call)
    decreases Left(call)
  {
    StepsRunOut(f, call, id, now);
    if Left(call) == 0 then (f, call)
    else
      var (files, next) := Step(f, call, id, now);
      Alone(files, next, id, now)
  }

  /** What a call that nobody interrupts does to the files and answers. */
  function Outcome(f: Files, call: Call, id: nat, now: Time): (Files, Result<Option<Request>, Problem>) {
    var x := f.catalog;
    var note, request := Lookup(f.notes, x.id), Lookup(f.requests, x.id);
    if Mismatched(note, x, request) then (f, Err(NoteIdentityMismatch))
    else if x.id != call.candidate || x.manifest != call.manifest || x.expires <= now then (f, Err(ExpiredOrChanged))
    else if (note.Some? || request.Some?) && (note.None? || note.value.change != call.change) then (f, Err(NoteChanged))
    else
      var chosen := if note.Some? then note.value.request else Request(id, x.id, x.manifest, x.previous, now);
      (f.(notes := f.notes[x.id := Note(chosen, call.change)], requests := f.requests[x.id := chosen]),
       Ok(Some(chosen)))
  }

  lemma OneStep(f: Files, call: Call, id: nat, now: Time)
    requires Left(call) > 0
    ensures var (files, next) := Step(f, call, id, now);
            Alone(f, call, id, now) == Alone(files, next, id, now)
  {
  }

  function Ended(call: Call, reply: Result<Option<Request>, Problem>): Call {
    call.(stage := if reply.Ok? then Returned(reply.value) else Failed(reply.error))
  }

  /** A retry finds the note of the call that crashed and completes that call's request, not a new one. */
  lemma AloneCompletesTheNote(f: Files, call: Call, id: nat, now: Time)
    requires call.stage == Started
    ensures Alone(f, call, id, now)
         == (Outcome(f, call, id, now).0, Ended(call, Outcome(f, call, id, now).1))
  {
    hide Alone;
    var x := f.catalog;
    var request := Lookup(f.requests, x.id);
    OneStep(f, call, id, now);
    OneStep(f, call.(stage := SawCatalog(x)), id, now);
    var read := call.(stage := SawRequest(x, request));
    OneStep(f, read, id, now);
    var next := Step(f, read, id, now).1;
    if next.stage.Drafted? {
      AloneFromDraft(f, next, id, now);
    } else {
      AloneAtEnd(f, next, id, now);
      if next.stage.Returned? {
        assert f.notes[x.id := f.notes[x.id]] == f.notes && f.requests[x.id := request.value] == f.requests;
      }
    }
  }

  /** A note is refused exactly when it was made for something else than the catalog entry and the request beside it. */
  lemma MismatchMeansForeignNote(f: Files, call: Call, id: nat, now: Time)
    requires call.stage == Started
    ensures Alone(f, call, id, now).1.stage == Failed(NoteIdentityMismatch) <==>
              f.catalog.id in f.notes
              && var noted := f.notes[f.catalog.id].request;
              || noted.candidate != f.catalog.id
              || noted.manifest != f.catalog.manifest
              || noted.previous != f.catalog.previous
              || (f.catalog.id in f.requests && noted != f.requests[f.catalog.id])
    ensures Alone(f, call, id, now).1.stage == Failed(NoteIdentityMismatch) ==> Alone(f, call, id, now).0 == f
  {
    hide Alone;
    AloneCompletesTheNote(f, call, id, now);
  }

  /**
   Otherwise a call for the unexpired entry of the catalog is answered exactly when its details are those of the
   note, or when neither note nor request exists yet; note and request then hold what it was answered.
   */
  lemma AloneIsAnswered(f: Files, call: Call, id: nat, now: Time)
    requires call.stage == Started && Alone(f, call, id, now).1.stage != Failed(NoteIdentityMismatch)
    ensures var (after, end) := Alone(f, call, id, now);
            var c := f.catalog.id;
            && (end.stage.Returned? <==>
                  && c == call.candidate && f.catalog.manifest == call.manifest && now < f.catalog.expires
                  && if c in f.notes then f.notes[c].change == call.change else c !in f.requests)
            && (!end.stage.Returned? ==> after == f)
            && (end.stage.Returned? ==>
                  var answer := if c in f.notes then f.notes[c].request
                                else Request(id, c, f.catalog.manifest, f.catalog.previous, now);
                  && end.stage.request == Some(answer)
                  && after == Files(f.catalog, f.notes[c := Note(answer, call.change)], f.requests[c := answer]))
  {
    hide Alone;
    AloneCompletesTheNote(f, call, id, now);
  }

  lemma AloneAtEnd(f: Files, call: Call, id: nat, now: Time)
    requires Left(call) == 0
    ensures Alone(f, call, id, now) == (f, call)
  {
  }

  lemma AloneFromDraft(f: Files, call: Call, id: nat, now: Time)
    requires call.stage.Drafted? && f.catalog.id == call.candidate && f.catalog.manifest == call.manifest
    requires call.candidate !in f.requests
    requires call.stage.draft.candidate == call.candidate && call.stage.draft.manifest == f.catalog.manifest
          && call.stage.draft.previous == f.catalog.previous
    requires !Mismatched(Lookup(f.notes, call.candidate), f.catalog, None)
    ensures var note := Lookup(f.notes, call.candidate);
            var chosen := if note.Some? then note.value.request else call.stage.draft;
            Alone(f, call, id, now) ==
            if note.Some? && note.value.change != call.change then (f, call.(stage := Failed(NoteChanged)))
            else (f.(notes := f.notes[call.candidate := Note(chosen, call.change)],
                     requests := f.requests[call.candidate := chosen]),
                  call.(stage := Returned(Some(chosen))))
  {
    hide Alone;
    var c, x := call.candidate, f.catalog;
    OneStep(f, call, id, now);
    var noted := f.(notes := Link(f.notes, c, Note(call.stage.draft, call.change)));
    var second := call.(stage := Noted(call.stage.draft));
    OneStep(noted, second, id, now);
    var third := Step(noted, second, id, now).1;
    if third.stage.Chose? {
      var chosen := third.stage.chosen;
      OneStep(noted, third, id, now);
      var bound := noted.(requests := noted.requests[c := chosen]);
      OneStep(bound, call.(stage := Linked(chosen)), id, now);
      OneStep(bound, call.(stage := SawCatalogAgain(x, chosen)), id, now);
      OneStep(bound, call.(stage := SawRequestAgain(x, Some(chosen), chosen)), id, now);
      AloneAtEnd(bound, call.(stage := Returned(Some(chosen))), id, now);
      assert noted.notes == f.notes[c := Note(chosen, call.change)];
    } else {
      AloneAtEnd(noted, third, id, now);
      assert noted == f;
    }
  }

  // ---------- The calls as they run ----------

  datatype Reply = Done(request: Option<Request>) | Denied(why: Problem) | Died

  class Store {
    var catalog: Candidate
    var notes: map<CandidateId, Note>
    var requests: map<CandidateId, Request>
    // Files that can still be linked; the process dies at the next one.
    var fuel: nat

    function Now(): Files
      reads this
    {
      Files(catalog, notes, requests)
    }

    constructor (catalog: Candidate, requests: map<CandidateId, Request>, fuel: nat)
      ensures Now() == Files(catalog, map[], requests)
      ensures this.fuel == fuel
    {
      this.catalog, this.notes, this.requests, this.fuel := catalog, map[], requests, fuel;
    }

    /** One access to the shared files by a call that others may overtake. */
    method Advance(call: Call, id: nat, now: Time) returns (next: Call)
      modifies this`notes, this`requests
      ensures (Now(), next) == Step(old(Now()), call, id, now)
    {
      next := call;
      match call.stage
      case Started => next := call.(stage := SawCatalog(catalog));
      case SawCatalog(x) => next := call.(stage := SawRequest(x, Lookup(requests, x.id)));
      case SawRequest(x, request) =>
        var note := Lookup(notes, x.id);
        if Mismatched(note, x, request) {
          next := call.(stage := Failed(NoteIdentityMismatch));
        } else if x.id != call.candidate || x.manifest != call.manifest || x.expires <= now {
          next := call.(stage := Failed(ExpiredOrChanged));
        } else if request.None? {
          next := call.(stage := Drafted(Request(id, x.id, x.manifest, x.previous, now)));
        } else if note.None? || note.value.change != call.change {
          next := call.(stage := Failed(NoteChanged));
        } else {
          next := call.(stage := Returned(request));
        }
      case Drafted(draft) =>
        if call.candidate !in notes { notes := notes[call.candidate := Note(draft, call.change)]; }
        next := call.(stage := Noted(draft));
      case Noted(_) =>
        var note := Lookup(notes, call.candidate);
        if note.None? || note.value.change != call.change || note.value.request.manifest != call.manifest {
          next := call.(stage := Failed(NoteChanged));
        } else {
          next := call.(stage := Chose(note.value.request));
        }
      case Chose(chosen) =>
        if call.candidate !in requests { requests := requests[call.candidate := chosen]; }
        next := call.(stage := Linked(chosen));
      case Linked(chosen) => next := call.(stage := SawCatalogAgain(catalog, chosen));
      case SawCatalogAgain(x, chosen) => next := call.(stage := SawRequestAgain(x, Lookup(requests, x.id), chosen));
      case SawRequestAgain(x, request, _) =>
        if Mismatched(Lookup(notes, x.id), x, request) {
          next := call.(stage := Failed(NoteIdentityMismatch));
        } else {
          next := call.(stage := Returned(request));
        }
      case _ =>
    }

    /** A whole request that nobody interrupts: it completes the note it finds, or leaves its own. */
    method Apply(candidate: CandidateId, manifest: Digest, change: Change, id: nat, now: Time) returns (reply: Reply)
      modifies this`notes, this`requests, this`fuel
      ensures reply.Died? ==> fuel == 0
      ensures catalog == old(catalog)
      ensures var (files, answer) := Outcome(old(Now()), Call(candidate, manifest, change, Started), id, now);
              match reply
              case Done(request) => answer == Ok(request) && Now() == files
              case Denied(why) => answer == Err(why) && Now() == files
              case Died => answer.Ok? && (Now() == old(Now()) || Now() == old(Now()).(notes := files.notes))
    {
      var x := catalog;
      var request, note := Lookup(requests, x.id), Lookup(notes, x.id);
      if Mismatched(note, x, request) { return Denied(NoteIdentityMismatch); }
      if x.id != candidate || x.manifest != manifest || x.expires <= now { return Denied(ExpiredOrChanged); }
      if request.Some? {
        if note.None? || note.value.change != change { return Denied(NoteChanged); }
        return Done(request);
      }
      if candidate !in notes {
        if fuel == 0 { return Died; }
        fuel := fuel - 1;
        notes := notes[candidate := Note(Request(id, candidate, manifest, x.previous, now), change)];
      }
      var chosen := notes[candidate];
      if chosen.change != change || chosen.request.manifest != manifest { return Denied(NoteChanged); }
      if candidate !in requests {
        if fuel == 0 { return Died; }
        fuel := fuel - 1;
        requests := requests[candidate := chosen.request];
      }
      return Done(Lookup(requests, catalog.id));
    }
  }
}
