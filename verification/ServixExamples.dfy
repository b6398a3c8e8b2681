/** A history in which the store accepts a rollback that its `state` does not show. */
module ServixExamples {
  import opened Basics
  import opened Sorting
  import opened Servix
  import opened ServixCalls

  lemma {:induction false} ImageIsNoLarger(runs: seq<Run>)
    ensures |set run | run in runs :: run.id| <= |runs|
  {
    if runs != [] {
      var rest, last := runs[..|runs| - 1], runs[|runs| - 1];
      assert runs == rest + [last];
      ImageIsNoLarger(rest);
      assert (set run | run in runs :: run.id) == (set run | run in rest :: run.id) + {last.id};
    }
  }

  function Below(n: nat): (ids: set<RequestId>)
    ensures |ids| == n && forall k: RequestId :: k in ids <==> k < n
  {
    if n == 0 then {} else Below(n - 1) + {n - 1}
  }

  const MANY: nat := SHOWN + 2

  function DigestOf(k: nat): Digest {
    if k == 0 then 0 else 1
  }

  /** The k-th deployment, as its background build starts and once its receipt is in. */
  function Started(k: nat): Run {
    Run(k, 0, 0, Deploy, None, None, if k == 0 then None else Some(k - 1), Building, Some(k), None, k, k, k + LIFETIME, None)
  }

  function Nth(k: nat): Run {
    Started(k).(status := Succeeded, digest := Some(DigestOf(k)))
  }

  /** More deployments than are shown, the oldest with another artifact than all the others. */
  function ManyReleases(): map<RequestId, Run> {
    map k | k in Below(MANY) :: Nth(k)
  }

  function ManyBuilds(): map<RequestId, Build> {
    map k | k in Below(MANY) :: Build(DigestOf(k), k, true)
  }

  // ---------- Thirty-two deployments one after another ----------

  function ReceiptOf(k: nat): Receipt {
    Receipt(Some(k), DigestOf(k), Succeeded, None)
  }

  function AfterMany(n: nat): State {
    State(map k | k in Below(n) :: Nth(k), map k | k in Below(n) :: ReceiptOf(k),
          map k | k in Below(n) :: Build(DigestOf(k), k, true), Below(n), map[], if n == 0 then 0 else n - 1)
  }

  lemma Write(h: seq<State>, w: Write, after: State) returns (g: seq<State>)
    requires History(h) && Enabled(h[|h| - 1], w) && Effect(h[|h| - 1], w) == after
    ensures History(g) && g != [] && g[|g| - 1] == after
  {
    g := h + [after];
    forall i | 0 <= i < |g| - 1 ensures Next(g[i], g[i + 1]) {
      if i < |h| - 1 {
        assert Next(h[i], h[i + 1]);
      }
    }
  }

  /** Deployment n is requested, built, handed over and reported, all at the instant n. */
  lemma DeployOneMore(h: seq<State>, n: nat) returns (g: seq<State>)
    requires h != [] && History(h) && h[|h| - 1] == AfterMany(n)
    ensures g != [] && History(g) && g[|g| - 1] == AfterMany(n + 1)
  {
    hide History, AfterMany, Below;
    var s := AfterMany(n);
    NothingActive(n);
    var s1 := s.(clock := n);
    g := Write(h, Tick(n), s1);
    var s2 := s1.(jobs := s.jobs[n := Started(n)], tasks := map[n := Started(n)]);
    g := Write(g, AddDeploy(Started(n)), s2);
    var s3 := s2.(builds := s.builds[n := Build(DigestOf(n), n, true)]);
    g := Write(g, PutBuild(n, Build(DigestOf(n), n, true)), s3);
    var activating := Started(n).(status := Activating, digest := Some(DigestOf(n)));
    var s4 := s3.(jobs := s.jobs[n := activating], tasks := map[]);
    assert s2.jobs[n := activating] == s4.jobs && s2.tasks - {n} == map[];
    g := Write(g, Activate(n, DigestOf(n)), s4);
    g := ReportSuccess(g, n, s4);
    OneMoreOfMany(n);
    assert s4.jobs[n := Nth(n)] == s.jobs[n := Nth(n)];
  }

  lemma ReportSuccess(h: seq<State>, n: nat, s: State) returns (g: seq<State>)
    requires h != [] && History(h) && h[|h| - 1] == s && s.clock == n
    requires n in s.jobs && s.jobs[n] == Started(n).(status := Activating, digest := Some(DigestOf(n)))
    ensures g != [] && History(g)
    ensures g[|g| - 1] == s.(jobs := s.jobs[n := Nth(n)], results := s.results[n := ReceiptOf(n)], requests := s.requests + {n})
  {
    hide History;
    var s1 := s.(requests := s.requests + {n});
    g := Write(h, HandOver(n), s1);
    var s2 := s1.(results := s.results[n := ReceiptOf(n)]);
    g := Write(g, PutReceipt(n, ReceiptOf(n)), s2);
    g := Write(g, Accept(n), s2.(jobs := s.jobs[n := Nth(n)]));
  }

  lemma NothingActive(n: nat)
    ensures var s := AfterMany(n);
            s.clock <= n && n !in s.jobs && s.tasks == map[] && forall id :: id in s.jobs ==> !Active(s.jobs[id])
  {
  }

  lemma OneMoreOfMany(n: nat)
    ensures var s := AfterMany(n);
            AfterMany(n + 1) ==
            s.(jobs := s.jobs[n := Nth(n)], results := s.results[n := ReceiptOf(n)],
               builds := s.builds[n := Build(DigestOf(n), n, true)], requests := s.requests + {n}, clock := n)
  {
  }

  lemma {:induction false} DeployMany(n: nat) returns (h: seq<State>)
    ensures h != [] && History(h) && h[|h| - 1] == AfterMany(n)
  {
    hide History, AfterMany;
    if n == 0 {
      h := NothingYet();
    } else {
      h := DeployMany(n - 1);
      h := DeployOneMore(h, n - 1);
    }
  }

  lemma NothingYet() returns (h: seq<State>)
    ensures h != [] && History(h) && h[|h| - 1] == AfterMany(0)
  {
    h := [EMPTY];
  }

  // ---------- The oldest of them ----------

  /** It happens: after these deployments the oldest can be rolled back to, and `state` offers no rollback. */
  lemma RollbackHiddenFromState() returns (h: seq<State>, listing: seq<RequestId>, body: RestoreRequest)
    ensures h != [] && History(h) && Lists(listing, h[|h| - 1].jobs.Keys) && body.operation == Rollback
    ensures var s := h[|h| - 1];
            && RestoreAnswer(s.jobs, s.builds, listing, 0, body, false, s.clock).Ok?
            && StateView(s.jobs, s.builds, listing).rollback == None
  {
    hide Completed, Runs, StateView, RollbackAt, ManyReleases, ManyBuilds, Lists, RestoreAnswer, Ordered, AllReleases, Nth;
    hide History, AfterMany, Below;
    var jobs, builds := ManyReleases(), ManyBuilds();
    h := DeployMany(MANY);
    ManyAreThese();
    ManyAreSound();
    listing := seq(MANY, i => i);
    body := RestoreRequest(MANY, MANY - 1, 0, Rollback, 0);
    ListsAll(listing);
    CompletedHolds(jobs, listing);
    var completed := Completed(Runs(jobs, listing));
    OldestIsLast(completed);
    OfferedIsAccepted(jobs, builds, listing);
    OldestIsCandidate(completed);
    OldestIsAccepted(listing, body, AfterMany(MANY).clock);
  }

  lemma ManyAreThese()
    ensures AfterMany(MANY).jobs == ManyReleases() && AfterMany(MANY).builds == ManyBuilds()
  {
  }

  lemma ManyAreSound()
    ensures Idle(ManyReleases())
    ensures forall k :: k in ManyReleases() ==> ManyReleases()[k].id == k
  {
  }

  lemma OldestIsAccepted(listing: seq<RequestId>, body: RestoreRequest, now: Time)
    requires Lists(listing, ManyReleases().Keys) && body == RestoreRequest(MANY, MANY - 1, 0, Rollback, 0)
    requires var completed := Completed(Runs(ManyReleases(), listing));
             && AllReleases(completed) && |completed| >= MANY
             && completed[0] == Nth(MANY - 1) && completed[|completed| - 1] == Nth(0)
    ensures RestoreAnswer(ManyReleases(), ManyBuilds(), listing, 0, body, false, now).Ok?
  {
    hide Completed, Runs;
    OldestIsCandidate(Completed(Runs(ManyReleases(), listing)));
    ManyAreSound();
  }

  lemma ListsAll(listing: seq<RequestId>)
    requires listing == seq(MANY, i => i)
    ensures Lists(listing, ManyReleases().Keys)
  {
    forall k | k in ManyReleases() ensures k in listing {
      assert listing[k] == k;
    }
  }

  ghost predicate AllReleases(completed: seq<Run>) {
    && (forall k: nat :: k < MANY ==> Nth(k) in completed)
    && (forall i :: 0 <= i < |completed| ==> completed[i].id < MANY && completed[i] == Nth(completed[i].id))
    && forall i, j :: 0 <= i < j < |completed| ==> completed[i].id != completed[j].id
  }

  lemma AllHave(completed: seq<Run>)
    requires forall run: Run :: run in completed <==>
               run.id in ManyReleases() && ManyReleases()[run.id] == run && run.status == Succeeded
    requires forall i, j :: 0 <= i < j < |completed| ==> completed[i].id != completed[j].id
    ensures AllReleases(completed)
  {
    forall k: nat | k < MANY ensures Nth(k) in completed {
      assert k in Below(MANY);
    }
  }

  lemma EnoughReleases(completed: seq<Run>)
    requires AllReleases(completed)
    ensures |completed| >= MANY
  {
    var ids := set run | run in completed :: run.id;
    ImageIsNoLarger(completed);
    forall k | k in Below(MANY) ensures k in ids {
      assert Nth(k) in completed && Nth(k).id == k;
    }
    assert Below(MANY) <= ids;
    Larger(Below(MANY), ids);
  }

  lemma Larger(a: set<RequestId>, b: set<RequestId>)
    requires a <= b
    ensures |a| <= |b|
  {
    assert b == a + (b - a);
  }

  lemma OldestIsLast(completed: seq<Run>)
    requires Ordered(completed, ReleasedLater)
    requires forall run: Run :: run in completed <==>
               run.id in ManyReleases() && ManyReleases()[run.id] == run && run.status == Succeeded
    requires forall i, j :: 0 <= i < j < |completed| ==> completed[i].id != completed[j].id
    ensures AllReleases(completed) && |completed| >= MANY
    ensures completed[0] == Nth(MANY - 1) && completed[|completed| - 1] == Nth(0)
  {
    hide ManyReleases;
    AllHave(completed);
    EnoughReleases(completed);
    AtTheEnds(completed);
  }

  lemma AtTheEnds(completed: seq<Run>)
    requires Ordered(completed, ReleasedLater) && AllReleases(completed) && |completed| >= MANY
    ensures completed[0] == Nth(MANY - 1) && completed[|completed| - 1] == Nth(0)
  {
    var last := |completed| - 1;
    forall i | 0 <= i < |completed| ensures completed[last].updated <= completed[i].updated <= completed[0].updated {
      assert i == last || !ReleasedLater(completed[last], completed[i]);
      assert i == 0 || !ReleasedLater(completed[i], completed[0]);
    }
    assert Nth(0) in completed && Nth(MANY - 1) in completed;
    assert completed[last] in completed && completed[0] in completed;
  }

  lemma OldestIsCandidate(completed: seq<Run>)
    requires AllReleases(completed) && |completed| >= MANY
    requires completed[0] == Nth(MANY - 1) && completed[|completed| - 1] == Nth(0)
    ensures RollbackAt(completed, |completed|, ManyReleases(), ManyBuilds()) == |completed| - 1
  {
    assert RollbackCandidate(completed, |completed| - 1, ManyReleases(), ManyBuilds());
  }
}
