/**
 The published branch: concurrent imports of bundles onto one ref, the exports cut from it, and the
 source jobs that lead to them.
 */
module GitPublication {
  import opened Basics

  type JobId = nat
  type ImportId = nat
  type DeviceId = nat

  // ---------- Commits ----------

  /** A commit's name is a digest of its contents and parents, so commits are equal when these are. */
  datatype Commit = Commit(contents: nat, parents: seq<Commit>)

  predicate Ancestor(a: Commit, c: Commit) {
    a == c || exists i :: 0 <= i < |c.parents| && Ancestor(a, c.parents[i])
  }

  lemma {:induction false} AncestorsOfAncestors(a: Commit, b: Commit, c: Commit)
    requires Ancestor(a, b) && Ancestor(b, c)
    ensures Ancestor(a, c)
    decreases c
  {
    if b != c {
      var i :| 0 <= i < |c.parents| && Ancestor(b, c.parents[i]);
      AncestorsOfAncestors(a, b, c.parents[i]);
    }
  }

  function Depth(c: Commit): nat {
    1 + Deepest(c.parents)
  }

  function Deepest(parents: seq<Commit>): nat {
    if parents == [] then 0
    else
      var first, rest := Depth(parents[0]), Deepest(parents[1..]);
      if first > rest then first else rest
  }

  lemma {:induction false} ParentIsShallower(parents: seq<Commit>, i: nat)
    requires i < |parents|
    ensures Depth(parents[i]) <= Deepest(parents)
  {
    if i > 0 {
      ParentIsShallower(parents[1..], i - 1);
    }
  }

  lemma {:induction false} AncestorIsShallower(a: Commit, c: Commit)
    requires Ancestor(a, c)
    ensures a == c || Depth(a) < Depth(c)
    decreases c
  {
    if a != c {
      var i :| 0 <= i < |c.parents| && Ancestor(a, c.parents[i]);
      AncestorIsShallower(a, c.parents[i]);
      ParentIsShallower(c.parents, i);
    }
  }

  /** History has no cycles. */
  lemma NoMutualAncestors(a: Commit, c: Commit)
    requires Ancestor(a, c) && Ancestor(c, a)
    ensures a == c
  {
    AncestorIsShallower(a, c);
    AncestorIsShallower(c, a);
  }

  predicate Closed(objects: set<Commit>) {
    forall c, i :: c in objects && 0 <= i < |c.parents| ==> c.parents[i] in objects
  }

  lemma {:induction false} HistoryIsPresent(objects: set<Commit>, a: Commit, c: Commit)
    requires Closed(objects) && c in objects && Ancestor(a, c)
    ensures a in objects
    decreases c
  {
    if a != c {
      var i :| 0 <= i < |c.parents| && Ancestor(a, c.parents[i]);
      HistoryIsPresent(objects, a, c.parents[i]);
    }
  }

  // ---------- The repository and its callers ----------

  /** What a bundle brings, and what it takes for granted. */
  datatype Bundle = Bundle(objects: set<Commit>, prerequisites: set<Commit>)

  /** How far an import has got; other imports may move the branch between any two of its commands. */
  datatype Stage = Begun | Verified | Compared | Fetched | Descends | Swapped | Refused
  datatype Import = Import(base: Commit, head: Commit, bundle: Bundle, stage: Stage)

  datatype JobStatus = Queued | Working | Published | Failed
  datatype Job = Job(
    device: DeviceId, actor: Actor, change: Option<nat>, paths: nat, base: Commit, expires: Time, status: JobStatus,
    head: Option<Commit>)

  /**
   `bundles` are the jobs whose bundle file was created, `open` those among them whose upload is still being
   worked on by this process. `log` holds every commit the branch ever pointed at; it is a history variable.
   */
  datatype State = State(
    tip: Commit, objects: set<Commit>, imports: map<ImportId, Import>, jobs: map<JobId, Job>, bundles: set<JobId>,
    open: set<JobId>, clock: Time, log: seq<Commit>)

  const JOB_LIFETIME: nat := 600000

  ghost predicate Seeded(s: State) {
    && Closed(s.objects) && s.tip in s.objects && s.log == [s.tip]
    && s.imports == map[] && s.jobs == map[] && s.bundles == {} && s.open == {}
  }

  /** One git command of an import. */
  function Command(s: State, x: Import): (State, Import) {
    match x.stage
    case Begun => (s, x.(stage := if x.bundle.prerequisites <= s.objects then Verified else Refused))
    case Verified => (s, x.(stage := if s.tip == x.base then Compared else Refused))
    case Compared =>
      var objects := s.objects + x.bundle.objects;
      if x.head in objects && Closed(objects) then (s.(objects := objects), x.(stage := Fetched))
      else (s, x.(stage := Refused))
    case Fetched => (s, x.(stage := if Ancestor(x.base, x.head) then Descends else Refused))
    case Descends =>
      if s.tip == x.base then (s.(tip := x.head, log := s.log + [x.head]), x.(stage := Swapped))
      else (s, x.(stage := Refused))
    case Swapped => (s, x)
    case Refused => (s, x)
  }

  datatype Step =
    | Tick(now: Time)
    | Begin(k: ImportId, x: Import)
    | Advance(k: ImportId)
    | QueueJob(id: JobId, job: Job)
    | ClaimJob(id: JobId)
    | ExpireJob(id: JobId)
    | ReceiveBundle(id: JobId)
    | PublishJob(id: JobId, k: ImportId)
    | EndUpload(id: JobId)
    | FailJob(id: JobId)
    | Restart

  ghost predicate Enabled(s: State, step: Step) {
    match step
    case Tick(now) => s.clock <= now
    case Begin(k, x) => k !in s.imports && x.stage == Begun
    case Advance(k) => k in s.imports
    case QueueJob(id, job) =>
      && id !in s.jobs && job.base in s.log && job.status == Queued && job.head.None?
      && job.expires <= s.clock + JOB_LIFETIME
    case ClaimJob(id) => id in s.jobs && s.jobs[id].status == Queued && s.clock < s.jobs[id].expires
    case ExpireJob(id) => id in s.jobs && s.jobs[id].status == Queued
    case ReceiveBundle(id) =>
      id in s.jobs && s.jobs[id].status == Working && s.clock < s.jobs[id].expires && id !in s.bundles
    case PublishJob(id, k) =>
      && id in s.jobs && s.jobs[id].status == Working && id in s.open
      && k in s.imports && s.imports[k].stage == Swapped && s.imports[k].base == s.jobs[id].base
    case EndUpload(id) => true
    case FailJob(id) => id in s.jobs && s.jobs[id].status == Working
    case Restart => true
  }

  ghost function Effect(s: State, step: Step): State
    requires Enabled(s, step)
  {
    match step
    case Tick(now) => s.(clock := now)
    case Begin(k, x) => s.(imports := s.imports[k := x])
    case Advance(k) =>
      var (t, x) := Command(s, s.imports[k]);
      t.(imports := s.imports[k := x])
    case QueueJob(id, job) => s.(jobs := s.jobs[id := job])
    case ClaimJob(id) => s.(jobs := s.jobs[id := s.jobs[id].(status := Working)])
    case ExpireJob(id) => s.(jobs := s.jobs[id := s.jobs[id].(status := Failed)])
    case ReceiveBundle(id) => s.(bundles := s.bundles + {id}, open := s.open + {id})
    case PublishJob(id, k) =>
      s.(jobs := s.jobs[id := s.jobs[id].(status := Published, head := Some(s.imports[k].head))], open := s.open - {id})
    case EndUpload(id) => s.(open := s.open - {id})
    case FailJob(id) => s.(jobs := s.jobs[id := s.jobs[id].(status := Failed)])
    case Restart => s.(open := {})
  }

  // ---------- What every step keeps ----------

  ghost predicate Inv(s: State) {
    && Closed(s.objects) && s.tip in s.objects && s.tip in s.log
    && (forall c :: c in s.log ==> Ancestor(c, s.tip))
    && (forall k :: k in s.imports ==> ImportOk(s, s.imports[k]))
    && (forall id :: id in s.jobs ==> JobOk(s, s.jobs[id]))
    && OneWinner(s)
  }

  ghost predicate ImportOk(s: State, x: Import) {
    && (x.stage == Fetched || x.stage == Descends || x.stage == Swapped ==> x.head in s.objects)
    && (x.stage == Descends || x.stage == Swapped ==> Ancestor(x.base, x.head))
    && (x.stage == Swapped ==> x.head in s.log)
  }

  ghost predicate JobOk(s: State, job: Job) {
    && Ancestor(job.base, s.tip)
    && (job.status == Published ==> job.head.Some? && job.head.value in s.log && Ancestor(job.base, job.head.value))
  }

  /** Of all imports onto one base only one ever moved the branch. */
  ghost predicate OneWinner(s: State) {
    forall k, l :: k in s.imports && l in s.imports && BothWon(s.imports[k], s.imports[l]) ==> k == l
  }

  predicate BothWon(x: Import, y: Import) {
    Won(x) && Won(y) && x.base == y.base
  }

  predicate Won(x: Import) {
    x.stage == Swapped && x.head != x.base
  }

  lemma CommandKeeps(s: State, k: ImportId)
    requires Inv(s) && k in s.imports
    ensures var (t, x) := Command(s, s.imports[k]);
            Closed(t.objects) && t.tip in t.objects && t.tip in t.log && ImportOk(t, x) && Ancestor(s.tip, t.tip)
            && s.objects <= t.objects && s.log <= t.log && t == s.(tip := t.tip, objects := t.objects, log := t.log)
  {
    hide Ancestor, OneWinner;
    assert ImportOk(s, s.imports[k]);
    Reflexive(s.tip);
  }

  lemma Reflexive(c: Commit)
    ensures Ancestor(c, c)
  {
  }

  lemma LogKept(s: State, step: Step, c: Commit)
    requires Inv(s) && Enabled(s, step) && c in Effect(s, step).log
    ensures Ancestor(c, Effect(s, step).tip)
  {
    hide Ancestor, OneWinner;
    var t := Effect(s, step);
    if step.Advance? {
      CommandKeeps(s, step.k);
      Reflexive(t.tip);
      if c in s.log {
        AncestorsOfAncestors(c, s.tip, t.tip);
      }
    }
  }

  lemma ImportKept(s: State, step: Step, k: ImportId)
    requires Inv(s) && Enabled(s, step) && k in Effect(s, step).imports
    ensures ImportOk(Effect(s, step), Effect(s, step).imports[k])
  {
    hide Ancestor, OneWinner, Closed;
    if step.Advance? {
      CommandKeeps(s, step.k);
    }
    if k in s.imports {
      assert ImportOk(s, s.imports[k]);
    }
  }

  lemma JobKept(s: State, step: Step, id: JobId)
    requires Inv(s) && Enabled(s, step) && id in Effect(s, step).jobs
    ensures JobOk(Effect(s, step), Effect(s, step).jobs[id])
  {
    hide Ancestor, OneWinner, Closed;
    var t := Effect(s, step);
    if step.Advance? {
      CommandKeeps(s, step.k);
      AncestorsOfAncestors(s.jobs[id].base, s.tip, t.tip);
    } else if step.PublishJob? {
      assert ImportOk(s, s.imports[step.k]);
    }
    Reflexive(s.tip);
    if id in s.jobs {
      assert JobOk(s, s.jobs[id]);
    }
  }

  lemma OneWinnerKept(s: State, step: Step)
    requires Inv(s) && Enabled(s, step)
    ensures OneWinner(Effect(s, step))
  {
    hide Ancestor, Closed;
    var t := Effect(s, step);
    if step.Advance? && Won(t.imports[step.k]) && !Won(s.imports[step.k]) {
      forall l | l in s.imports && Won(s.imports[l]) ensures s.imports[l].base != t.imports[step.k].base {
        assert ImportOk(s, s.imports[l]);
        LoserIsLate(s, s.imports[l]);
      }
    }
  }

  /** Once an import moved the branch, its base is never the tip again. */
  lemma LoserIsLate(s: State, x: Import)
    requires Inv(s) && ImportOk(s, x) && Won(x)
    ensures s.tip != x.base
  {
    assert Ancestor(x.head, s.tip) && Ancestor(x.base, x.head);
    if s.tip == x.base {
      NoMutualAncestors(x.base, x.head);
    }
  }

  lemma StepKeeps(s: State, step: Step)
    requires Inv(s) && Enabled(s, step)
    ensures Inv(Effect(s, step)) && Ancestor(s.tip, Effect(s, step).tip) && s.log <= Effect(s, step).log
  {
    hide Ancestor, Closed, ImportOk, JobOk, OneWinner, Command;
    var t := Effect(s, step);
    Reflexive(s.tip);
    if step.Advance? {
      CommandKeeps(s, step.k);
    }
    forall c | c in t.log ensures Ancestor(c, t.tip) {
      LogKept(s, step, c);
    }
    forall k | k in t.imports ensures ImportOk(t, t.imports[k]) {
      ImportKept(s, step, k);
    }
    forall id | id in t.jobs ensures JobOk(t, t.jobs[id]) {
      JobKept(s, step, id);
    }
    OneWinnerKept(s, step);
  }

  // ---------- Histories ----------

  ghost predicate Next(s: State, t: State) {
    exists step :: Enabled(s, step) && t == Effect(s, step)
  }

  ghost predicate History(h: seq<State>) {
    h != [] && Seeded(h[0]) && forall i :: 0 <= i < |h| - 1 ==> Next(h[i], h[i + 1])
  }

  lemma {:induction false} EveryStateIsSound(h: seq<State>, i: nat)
    requires History(h) && i < |h|
    ensures Inv(h[i])
  {
    hide Inv, Effect, Enabled;
    if i == 0 {
      SeededIsSound(h[0]);
    } else {
      EveryStateIsSound(h, i - 1);
      assert Next(h[i - 1], h[i - 1 + 1]);
      var step :| Enabled(h[i - 1], step) && h[i] == Effect(h[i - 1], step);
      StepKeeps(h[i - 1], step);
    }
  }

  lemma SeededIsSound(s: State)
    requires Seeded(s)
    ensures Inv(s)
  {
  }

  /** The branch only moves forward: every commit it ever pointed at is in the history of every later tip. */
  lemma {:induction false} OnlyFastForwards(h: seq<State>, i: nat, k: nat)
    requires History(h) && i <= k < |h|
    ensures Ancestor(h[i].tip, h[k].tip) && h[i].log <= h[k].log
    decreases k
  {
    hide Inv, Effect, Enabled, Ancestor;
    if i < k {
      OnlyFastForwards(h, i, k - 1);
      EveryStateIsSound(h, k - 1);
      assert Next(h[k - 1], h[k - 1 + 1]);
      var step :| Enabled(h[k - 1], step) && h[k] == Effect(h[k - 1], step);
      StepKeeps(h[k - 1], step);
      AncestorsOfAncestors(h[i].tip, h[k - 1].tip, h[k].tip);
    } else {
      Reflexive(h[i].tip);
    }
  }

  /** What a published job brought, and what it was based on, stays in the branch for good. */
  lemma PublishedStaysPublished(h: seq<State>, i: nat, k: nat, id: JobId)
    requires History(h) && i <= k < |h| && id in h[i].jobs && h[i].jobs[id].status == Published
    ensures h[i].jobs[id].head.Some?
    ensures Ancestor(h[i].jobs[id].base, h[i].jobs[id].head.value) && Ancestor(h[i].jobs[id].head.value, h[k].tip)
    ensures h[i].jobs[id].head.value in h[k].objects
  {
    EveryStateIsSound(h, i);
    EveryStateIsSound(h, k);
    OnlyFastForwards(h, i, k);
    assert JobOk(h[i], h[i].jobs[id]);
    AncestorsOfAncestors(h[i].jobs[id].head.value, h[i].tip, h[k].tip);
    HistoryIsPresent(h[k].objects, h[i].jobs[id].head.value, h[k].tip);
  }

  /** Of concurrent imports that would each add something to the same base, at most one succeeds. */
  lemma OneImportPerBase(h: seq<State>, i: nat, k: ImportId, l: ImportId)
    requires History(h) && i < |h| && k in h[i].imports && l in h[i].imports
    requires BothWon(h[i].imports[k], h[i].imports[l])
    ensures k == l
  {
    EveryStateIsSound(h, i);
  }

  // ---------- Exports ----------

  /** What `git rev-list` lists first of a branch: its tip, then more of its history. */
  ghost predicate ListsHistory(known: seq<Commit>, tip: Commit) {
    known != [] && known[0] == tip && forall c :: c in known ==> Ancestor(c, tip)
  }

  /** The commits of a bundle of the branch at `tip`, cut off at a commit the receiver has. */
  predicate InBundle(c: Commit, tip: Commit, common: Option<Commit>) {
    Ancestor(c, tip) && (common.Some? ==> !Ancestor(c, common.value))
  }

  /** The first head of the receiver that is listed and is not the tip itself. */
  method ChooseCommon(known: seq<Commit>, heads: seq<Commit>) returns (common: Option<Commit>)
    requires known != []
    ensures common.Some? ==>
              exists i :: 0 <= i < |heads| && heads[i] == common.value && Usable(known, heads[i])
                       && forall k :: 0 <= k < i ==> !Usable(known, heads[k])
    ensures common.None? ==> forall i :: 0 <= i < |heads| ==> !Usable(known, heads[i])
  {
    for i := 0 to |heads|
      invariant forall k :: 0 <= k < i ==> !Usable(known, heads[k])
    {
      if heads[i] in known && heads[i] != known[0] { return Some(heads[i]); }
    }
    return None;
  }

  predicate Usable(known: seq<Commit>, head: Commit)
    requires known != []
  {
    head in known && head != known[0]
  }

  /**
   The bundle and the history of the common commit are together the whole branch, without overlap, and the
   tip is always in the bundle, even when the branch moved on after the history was listed.
   */
  lemma ExportIsComplete(h: seq<State>, i: nat, k: nat, known: seq<Commit>, common: Option<Commit>)
    requires History(h) && i <= k < |h| && ListsHistory(known, h[i].tip)
    requires common.Some? ==> Usable(known, common.value)
    ensures InBundle(h[k].tip, h[k].tip, common)
    ensures forall c :: Ancestor(c, h[k].tip) <==> InBundle(c, h[k].tip, common) || (common.Some? && Ancestor(c, common.value))
  {
    OnlyFastForwards(h, i, k);
    if common.Some? {
      var tip := h[k].tip;
      forall c | Ancestor(c, common.value) ensures Ancestor(c, tip) {
        AncestorsOfAncestors(common.value, h[i].tip, tip);
        AncestorsOfAncestors(c, common.value, tip);
      }
      if Ancestor(tip, common.value) {
        AncestorsOfAncestors(h[i].tip, tip, common.value);
        NoMutualAncestors(h[i].tip, common.value);
      }
    }
  }

  /** A receiver that has the common commit and its history has the whole branch once it adds the bundle. */
  lemma ReceiverIsComplete(objects: set<Commit>, tip: Commit, common: Option<Commit>, c: Commit)
    requires Closed(objects) && (common.Some? ==> common.value in objects) && Ancestor(c, tip)
    ensures c in objects || InBundle(c, tip, common)
  {
    if common.Some? && Ancestor(c, common.value) {
      HistoryIsPresent(objects, c, common.value);
    }
  }

  /** Leaving the tip out of the choice matters: cut at a commit of the branch, a bundle has the tip exactly if that commit is not it. */
  lemma CutAtTipIsEmpty(tip: Commit, common: Commit)
    requires Ancestor(common, tip)
    ensures InBundle(tip, tip, Some(common)) <==> common != tip
    ensures common == tip ==> forall c :: !InBundle(c, tip, Some(common))
  {
    if Ancestor(tip, common) {
      NoMutualAncestors(tip, common);
    }
  }
}
