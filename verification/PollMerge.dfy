/** How the control center joins a poll response, possibly late, with what it already shows. */
module PollMerge {
  import opened Basics
  import opened Sorting

  type RequestId = nat

  datatype Run = Run(id: RequestId, succeeded: bool, created: Time, updated: Time, details: nat)
  datatype View = View(runs: seq<Run>, current: Option<RequestId>, rollback: Option<RequestId>, details: nat)

  /** A map that remembers the order in which its keys were first set. */
  datatype Table = Table(keys: seq<RequestId>, records: map<RequestId, Run>)

  const SHOWN: nat := 30

  function Put(t: Table, run: Run): Table {
    Table(if run.id in t.records then t.keys else t.keys + [run.id], t.records[run.id := run])
  }

  function TableOf(runs: seq<Run>): Table {
    if runs == [] then Table([], map[]) else Put(TableOf(runs[..|runs| - 1]), runs[|runs| - 1])
  }

  function KeepNewer(t: Table, run: Run): Table {
    if run.id !in t.records || run.updated > t.records[run.id].updated then Put(t, run) else t
  }

  function Overlay(t: Table, runs: seq<Run>): Table {
    if runs == [] then t else KeepNewer(Overlay(t, runs[..|runs| - 1]), runs[|runs| - 1])
  }

  ghost predicate WellFormed(t: Table) {
    && (forall i, j :: 0 <= i < j < |t.keys| ==> t.keys[i] != t.keys[j])
    && (forall k :: k in t.keys <==> k in t.records)
    && forall k :: k in t.records ==> t.records[k].id == k
  }

  function Values(t: Table): (runs: seq<Run>)
    requires WellFormed(t)
    ensures |runs| == |t.keys| && forall i :: 0 <= i < |runs| ==> runs[i] == t.records[t.keys[i]]
  {
    seq(|t.keys|, i requires 0 <= i < |t.keys| => t.records[t.keys[i]])
  }

  // ---------- Sorting ----------

  predicate NewestFirst(runs: seq<Run>) {
    forall i, j :: 0 <= i < j < |runs| ==> runs[i].created >= runs[j].created
  }

  predicate CreatedLater(a: Run, b: Run) {
    a.created > b.created
  }

  function ByCreation(runs: seq<Run>): seq<Run> {
    Sort(runs, CreatedLater)
  }

  lemma ByCreationSorts(runs: seq<Run>)
    ensures NewestFirst(ByCreation(runs)) && multiset(ByCreation(runs)) == multiset(runs)
  {
    SortOrders(runs, CreatedLater);
    assert Ordered(ByCreation(runs), CreatedLater);
  }

  predicate Beats(a: Run, b: Run) {
    a.updated > b.updated || (a.updated == b.updated && a.created > b.created)
  }

  /** The first succeeded run of a stable sort, latest update first and then latest creation. */
  function Latest(runs: seq<Run>): (best: Option<Run>)
    ensures best.Some? ==> best.value in runs && best.value.succeeded
    ensures best.Some? ==> forall r :: r in runs && r.succeeded ==> !Beats(r, best.value)
    ensures best.None? ==> forall r :: r in runs ==> !r.succeeded
  {
    if runs == [] then None
    else
      var best, last := Latest(runs[..|runs| - 1]), runs[|runs| - 1];
      assert forall r :: r in runs ==> r in runs[..|runs| - 1] || r == last;
      if last.succeeded && (best.None? || Beats(last, best.value)) then Some(last) else best
  }

  // ---------- The merge ----------

  function Shown(view: Option<View>): seq<Run> {
    if view.Some? then view.value.runs else []
  }

  function Joined(current: Option<View>, incoming: View): Table {
    Overlay(TableOf(incoming.runs), Shown(current))
  }

  lemma {:induction false} TableIsWellFormed(runs: seq<Run>)
    ensures WellFormed(TableOf(runs))
  {
    if runs != [] {
      TableIsWellFormed(runs[..|runs| - 1]);
    }
  }

  lemma {:induction false} OverlayIsWellFormed(t: Table, runs: seq<Run>)
    requires WellFormed(t)
    ensures WellFormed(Overlay(t, runs))
  {
    if runs != [] {
      OverlayIsWellFormed(t, runs[..|runs| - 1]);
    }
  }

  lemma JoinedIsWellFormed(current: Option<View>, incoming: View)
    ensures WellFormed(Joined(current, incoming))
  {
    TableIsWellFormed(incoming.runs);
    OverlayIsWellFormed(TableOf(incoming.runs), Shown(current));
  }

  function Truncated(runs: seq<Run>): seq<Run> {
    if |runs| <= SHOWN then runs else runs[..SHOWN]
  }

  function Merged(current: Option<View>, incoming: View): View {
    JoinedIsWellFormed(current, incoming);
    var merged := Values(Joined(current, incoming));
    var latest := Latest(merged);
    var result := incoming.(runs := Truncated(ByCreation(merged)));
    if latest.Some? && incoming.current != Some(latest.value.id)
    then result.(current := Some(latest.value.id), rollback := None)
    else result
  }

  method Merge(current: Option<View>, incoming: View) returns (result: View)
    ensures result == Merged(current, incoming)
  {
    var runs := Table([], map[]);
    for i := 0 to |incoming.runs|
      invariant runs == TableOf(incoming.runs[..i])
    {
      assert incoming.runs[..i + 1][..i] == incoming.runs[..i];
      runs := Put(runs, incoming.runs[i]);
    }
    assert incoming.runs[..|incoming.runs|] == incoming.runs;
    var shown := Shown(current);
    for i := 0 to |shown|
      invariant runs == Overlay(TableOf(incoming.runs), shown[..i])
    {
      assert shown[..i + 1][..i] == shown[..i];
      var run := shown[i];
      if run.id !in runs.records || run.updated > runs.records[run.id].updated {
        runs := Put(runs, run);
      }
    }
    assert shown[..|shown|] == shown;
    JoinedIsWellFormed(current, incoming);
    var merged := Values(runs);
    var latest := Latest(merged);
    result := incoming.(runs := Truncated(ByCreation(merged)));
    if latest.Some? && incoming.current != Some(latest.value.id) {
      result := result.(current := Some(latest.value.id), rollback := None);
    }
  }

  // ---------- What a view of a set of records is ----------

  /** A request is created once, no two at the same instant, and every update of it has its own instant. */
  ghost predicate Consistent(records: set<Run>) {
    forall a, b :: a in records && b in records ==>
      && (a.id == b.id <==> a.created == b.created)
      && (a.id == b.id && a.updated == b.updated ==> a == b)
  }

  ghost predicate Newest(records: set<Run>, run: Run) {
    run in records && forall r :: r in records && r.id == run.id ==> r.updated <= run.updated
  }

  ghost predicate Listed(runs: seq<Run>, id: RequestId) {
    exists i :: 0 <= i < |runs| && runs[i].id == id
  }

  /** The newest record of each of the thirty most recently created requests. */
  ghost predicate IsTop(records: set<Run>, runs: seq<Run>) {
    && |runs| <= SHOWN
    && (forall i, j :: 0 <= i < j < |runs| ==> runs[i].created > runs[j].created)
    && (forall i :: 0 <= i < |runs| ==> Newest(records, runs[i]))
    && forall r :: r in records && !Listed(runs, r.id)
         ==> |runs| == SHOWN && forall i :: 0 <= i < |runs| ==> runs[i].created > r.created
  }

  lemma {:induction false} TopsAgree(records: set<Run>, a: seq<Run>, b: seq<Run>, n: nat)
    requires Consistent(records) && IsTop(records, a) && IsTop(records, b) && n <= |a| && n <= |b|
    ensures forall i :: 0 <= i < n ==> a[i] == b[i]
  {
    hide Consistent, IsTop;
    if n > 0 {
      TopsAgree(records, a, b, n - 1);
      NotLater(records, a, b, n - 1);
      NotLater(records, b, a, n - 1);
      SameInstant(records, a, b, n - 1);
    }
  }

  lemma SameInstant(records: set<Run>, a: seq<Run>, b: seq<Run>, i: nat)
    requires Consistent(records) && IsTop(records, a) && IsTop(records, b) && i < |a| && i < |b|
    requires a[i].created == b[i].created
    ensures a[i] == b[i]
  {
    assert Newest(records, a[i]) && Newest(records, b[i]);
  }

  lemma NotLater(records: set<Run>, a: seq<Run>, b: seq<Run>, i: nat)
    requires Consistent(records) && IsTop(records, a) && IsTop(records, b) && i < |a| && i < |b|
    requires forall k :: 0 <= k < i ==> a[k] == b[k]
    ensures a[i].created <= b[i].created
  {
    assert Newest(records, a[i]);
    forall j | 0 <= j < |b| && b[j].id == a[i].id ensures a[i].created <= b[i].created {
      assert Newest(records, b[j]);
      assert b[j].created == a[i].created;
    }
  }

  lemma SameLength(records: set<Run>, a: seq<Run>, b: seq<Run>)
    requires Consistent(records) && IsTop(records, a) && IsTop(records, b)
    ensures |a| >= |b|
  {
    if |a| < |b| {
      assert Newest(records, b[|a|]);
      TopsAgree(records, a, b, |a|);
    }
  }

  /** There is only one such list. */
  lemma TopIsUnique(records: set<Run>, a: seq<Run>, b: seq<Run>)
    requires Consistent(records) && IsTop(records, a) && IsTop(records, b)
    ensures a == b
  {
    SameLength(records, a, b);
    SameLength(records, b, a);
    TopsAgree(records, a, b, |a|);
  }

  // ---------- One merge ----------

  predicate UniqueIds(runs: seq<Run>) {
    forall i, j :: 0 <= i < j < |runs| ==> runs[i].id != runs[j].id
  }

  function Records(runs: seq<Run>): set<Run> {
    set r | r in runs
  }

  lemma {:induction false} TableHolds(runs: seq<Run>)
    ensures forall r :: r in runs ==> r.id in TableOf(runs).records
    ensures forall k :: k in TableOf(runs).records ==> TableOf(runs).records[k] in runs && TableOf(runs).records[k].id == k
    ensures UniqueIds(runs) ==> forall r :: r in runs ==> TableOf(runs).records[r.id] == r
  {
    if runs != [] {
      var rest, last := runs[..|runs| - 1], runs[|runs| - 1];
      TableHolds(rest);
      assert forall r :: r in runs ==> r in rest || r == last;
      assert UniqueIds(runs) ==> UniqueIds(rest) && forall r :: r in rest ==> r.id != last.id;
    }
  }

  lemma {:induction false} OverlayHolds(t: Table, runs: seq<Run>)
    ensures forall r :: r in runs ==> r.id in Overlay(t, runs).records && Overlay(t, runs).records[r.id].updated >= r.updated
    ensures forall k :: k in t.records ==>
              k in Overlay(t, runs).records && Overlay(t, runs).records[k].updated >= t.records[k].updated
    ensures forall k :: k in Overlay(t, runs).records ==>
              || (k in t.records && Overlay(t, runs).records[k] == t.records[k])
              || (Overlay(t, runs).records[k] in runs && Overlay(t, runs).records[k].id == k)
  {
    hide KeepNewer;
    if runs != [] {
      var rest, last := runs[..|runs| - 1], runs[|runs| - 1];
      OverlayHolds(t, rest);
      NewerKept(Overlay(t, rest), last);
      assert forall r :: r in runs ==> r in rest || r == last;
    }
  }

  lemma NewerKept(t: Table, run: Run)
    ensures run.id in KeepNewer(t, run).records && KeepNewer(t, run).records[run.id].updated >= run.updated
    ensures KeepNewer(t, run).records.Keys == t.records.Keys + {run.id}
    ensures forall k :: k in t.records ==> KeepNewer(t, run).records[k].updated >= t.records[k].updated
    ensures forall k :: k in t.records ==>
              || KeepNewer(t, run).records[k] == t.records[k]
              || (k == run.id && KeepNewer(t, run).records[k] == run)
    ensures run.id !in t.records ==> KeepNewer(t, run).records[run.id] == run
  {
  }

  /** The records the merge chooses from: for each request the newest of the two views. */
  lemma JoinedIsNewest(records: set<Run>, current: Option<View>, incoming: View)
    requires IsTop(records, Shown(current)) && UniqueIds(incoming.runs)
    ensures var t, all := Joined(current, incoming), records + Records(incoming.runs);
            && (forall k :: k in t.records ==> t.records[k].id == k && t.records[k] in all)
            && (forall r :: r in incoming.runs ==> r.id in t.records && t.records[r.id].updated >= r.updated)
            && (forall i :: 0 <= i < |Shown(current)| ==>
                  var r := Shown(current)[i]; r.id in t.records && t.records[r.id].updated >= r.updated)
  {
    TableHolds(incoming.runs);
    OverlayHolds(TableOf(incoming.runs), Shown(current));
    forall k | k in Joined(current, incoming).records && Joined(current, incoming).records[k] in Shown(current)
      ensures Joined(current, incoming).records[k] in records
    {
      var i :| 0 <= i < |Shown(current)| && Shown(current)[i] == Joined(current, incoming).records[k];
      assert Newest(records, Shown(current)[i]);
    }
  }

  /** A record that is left out is older than every request already shown, and so is every record of its request. */
  lemma JoinedRecordIsNewest(records: set<Run>, current: Option<View>, incoming: View, k: RequestId)
    requires IsTop(records, Shown(current)) && UniqueIds(incoming.runs) && k in Joined(current, incoming).records
    requires Listed(Shown(current), k) || |Shown(current)| < SHOWN
    ensures Newest(records + Records(incoming.runs), Joined(current, incoming).records[k])
  {
    JoinedIsNewest(records, current, incoming);
    var t, all := Joined(current, incoming), records + Records(incoming.runs);
    forall r | r in all && r.id == k ensures r.updated <= t.records[k].updated {
      if r in records {
        assert Listed(Shown(current), r.id);
        var i :| 0 <= i < |Shown(current)| && Shown(current)[i].id == r.id;
        assert Newest(records, Shown(current)[i]);
      }
    }
  }

  ghost predicate Strict(runs: seq<Run>) {
    forall i, j :: 0 <= i < j < |runs| ==> runs[i].created > runs[j].created
  }

  lemma SortsStrictly(t: Table, all: set<Run>)
    requires WellFormed(t) && Consistent(all) && forall k :: k in t.records ==> t.records[k] in all
    ensures var sorted := ByCreation(Values(t));
            && Strict(sorted)
            && (forall k :: k in t.records ==> Listed(sorted, k))
            && forall i :: 0 <= i < |sorted| ==> sorted[i].id in t.records && sorted[i] == t.records[sorted[i].id]
  {
    hide ByCreation, NewestFirst, Consistent, Strict;
    var values, sorted := Values(t), ByCreation(Values(t));
    ByCreationSorts(values);
    SameElements(values, sorted);
    SortedTable(t, values, sorted);
    assert UniqueIds(values);
    StaysDistinct(values, sorted);
    NoTwins(sorted, all);
  }

  lemma SortedTable(t: Table, values: seq<Run>, sorted: seq<Run>)
    requires WellFormed(t) && values == Values(t) && forall r :: r in values <==> r in sorted
    ensures forall k :: k in t.records ==> Listed(sorted, k)
    ensures forall i :: 0 <= i < |sorted| ==> sorted[i].id in t.records && sorted[i] == t.records[sorted[i].id]
  {
    forall k | k in t.records ensures Listed(sorted, k) {
      var i :| 0 <= i < |t.keys| && t.keys[i] == k;
      assert values[i] in sorted;
    }
    forall i | 0 <= i < |sorted| ensures sorted[i].id in t.records && sorted[i] == t.records[sorted[i].id] {
      assert sorted[i] in values;
    }
  }

  lemma NoTwins(sorted: seq<Run>, all: set<Run>)
    requires NewestFirst(sorted) && Consistent(all) && forall i, j :: 0 <= i < j < |sorted| ==> sorted[i] != sorted[j]
    requires forall i :: 0 <= i < |sorted| ==> sorted[i] in all
    requires forall i, j :: 0 <= i < |sorted| && 0 <= j < |sorted| && sorted[i].id == sorted[j].id ==> sorted[i] == sorted[j]
    ensures Strict(sorted)
  {
    forall i, j | 0 <= i < j < |sorted| ensures sorted[i].created > sorted[j].created {
      assert sorted[i] != sorted[j];
    }
  }

  /** A strictly ordered list that contains the requests of another keeps them no further forward. */
  lemma {:induction false} Rank(shown: seq<Run>, sorted: seq<Run>, i: nat) returns (p: nat)
    requires Strict(shown) && Strict(sorted) && i < |shown|
    requires forall k :: 0 <= k < |shown| ==> Listed(sorted, shown[k].id)
    requires forall k, j :: 0 <= k < |shown| && 0 <= j < |sorted| && shown[k].id == sorted[j].id
               ==> shown[k].created == sorted[j].created
    ensures i <= p < |sorted| && sorted[p].id == shown[i].id
  {
    assert Listed(sorted, shown[i].id);
    p :| 0 <= p < |sorted| && sorted[p].id == shown[i].id;
    if i > 0 {
      var q := Rank(shown, sorted, i - 1);
    }
  }

  // ---------- A merge, and any number of them ----------

  /** Merging keeps the view exact: it then shows the newest records of the latest thirty of all requests seen. */
  lemma MergeKeepsTop(records: set<Run>, current: Option<View>, incoming: View)
    requires IsTop(records, Shown(current)) && UniqueIds(incoming.runs)
    requires Consistent(records + Records(incoming.runs))
    ensures IsTop(records + Records(incoming.runs), Merged(current, incoming).runs)
  {
    hide Consistent, ByCreation, Values, Latest, IsTop, Newest, Joined;
    var t, all := Joined(current, incoming), records + Records(incoming.runs);
    JoinedIsWellFormed(current, incoming);
    JoinedIsNewest(records, current, incoming);
    SortsStrictly(t, all);
    var sorted := ByCreation(Values(t));
    var result := Truncated(sorted);
    forall i | 0 <= i < |result| ensures Newest(all, result[i]) {
      ShownIsNewest(records, current, incoming, sorted, i);
    }
    forall r | r in all && !Listed(result, r.id)
      ensures |result| == SHOWN && forall i :: 0 <= i < |result| ==> result[i].created > r.created
    {
      HiddenIsOlder(records, current, incoming, sorted, r);
    }
    IsTopFrom(all, result);
  }

  lemma IsTopFrom(records: set<Run>, runs: seq<Run>)
    requires |runs| <= SHOWN && Strict(runs) && forall i :: 0 <= i < |runs| ==> Newest(records, runs[i])
    requires forall r :: r in records && !Listed(runs, r.id)
               ==> |runs| == SHOWN && forall i :: 0 <= i < |runs| ==> runs[i].created > r.created
    ensures IsTop(records, runs)
  {
  }

  ghost predicate Sorts(t: Table, all: set<Run>, sorted: seq<Run>) {
    && Strict(sorted)
    && (forall k :: k in t.records ==> t.records[k] in all && Listed(sorted, k))
    && forall i :: 0 <= i < |sorted| ==> sorted[i].id in t.records && sorted[i] == t.records[sorted[i].id]
  }

  /** When thirty requests were shown already, the first thirty of the merge are at least as recent as all of them. */
  lemma FullViewStaysAhead(records: set<Run>, current: Option<View>, incoming: View, sorted: seq<Run>)
    requires IsTop(records, Shown(current)) && UniqueIds(incoming.runs) && Consistent(records + Records(incoming.runs))
    requires Sorts(Joined(current, incoming), records + Records(incoming.runs), sorted)
    requires |Shown(current)| == SHOWN
    ensures |sorted| >= SHOWN
    ensures forall i :: 0 <= i < SHOWN ==> sorted[i].created >= Shown(current)[SHOWN - 1].created
  {
    hide Joined, Records, UniqueIds;
    var shown, all := Shown(current), records + Records(incoming.runs);
    JoinedIsNewest(records, current, incoming);
    ShownInTable(records, shown, Joined(current, incoming), all, sorted);
    var p := Rank(shown, sorted, SHOWN - 1);
  }

  lemma ShownInTable(records: set<Run>, shown: seq<Run>, t: Table, all: set<Run>, sorted: seq<Run>)
    requires IsTop(records, shown) && Consistent(all) && records <= all && Sorts(t, all, sorted)
    requires forall i :: 0 <= i < |shown| ==> shown[i].id in t.records
    ensures Strict(shown) && forall k :: 0 <= k < |shown| ==> Listed(sorted, shown[k].id)
    ensures forall k, j :: 0 <= k < |shown| && 0 <= j < |sorted| && shown[k].id == sorted[j].id
              ==> shown[k].created == sorted[j].created
  {
    forall k, j | 0 <= k < |shown| && 0 <= j < |sorted| && shown[k].id == sorted[j].id
      ensures shown[k].created == sorted[j].created
    {
      assert Newest(records, shown[k]) && sorted[j] in all;
    }
  }

  lemma ShownIsNewest(records: set<Run>, current: Option<View>, incoming: View, sorted: seq<Run>, i: nat)
    requires IsTop(records, Shown(current)) && UniqueIds(incoming.runs) && Consistent(records + Records(incoming.runs))
    requires Sorts(Joined(current, incoming), records + Records(incoming.runs), sorted)
    requires i < |sorted| && i < SHOWN
    ensures Newest(records + Records(incoming.runs), sorted[i])
  {
    hide Joined, UniqueIds, Strict;
    var shown, t, all := Shown(current), Joined(current, incoming), records + Records(incoming.runs);
    JoinedIsNewest(records, current, incoming);
    assert sorted[i] == t.records[sorted[i].id] && sorted[i] in all;
    if Listed(shown, sorted[i].id) || |shown| < SHOWN {
      JoinedRecordIsNewest(records, current, incoming, sorted[i].id);
    } else {
      FullViewStaysAhead(records, current, incoming, sorted);
      forall r | r in all && r.id == sorted[i].id ensures r.updated <= sorted[i].updated {
        assert r in records ==> !Listed(shown, r.id);
      }
    }
  }

  lemma HiddenIsOlder(records: set<Run>, current: Option<View>, incoming: View, sorted: seq<Run>, r: Run)
    requires IsTop(records, Shown(current)) && UniqueIds(incoming.runs) && Consistent(records + Records(incoming.runs))
    requires Sorts(Joined(current, incoming), records + Records(incoming.runs), sorted)
    requires r in records + Records(incoming.runs) && !Listed(Truncated(sorted), r.id)
    ensures |sorted| >= SHOWN && forall i :: 0 <= i < SHOWN ==> sorted[i].created > r.created
  {
    hide Joined, UniqueIds, Strict, Consistent, IsTop;
    JoinedIsNewest(records, current, incoming);
    if r.id in Joined(current, incoming).records {
      CutOff(records + Records(incoming.runs), Joined(current, incoming), sorted, r);
    } else {
      Absent(records, Shown(current), r);
      FullViewStaysAhead(records, current, incoming, sorted);
    }
  }

  lemma CutOff(all: set<Run>, t: Table, sorted: seq<Run>, r: Run)
    requires Consistent(all) && Sorts(t, all, sorted) && r in all && r.id in t.records && !Listed(Truncated(sorted), r.id)
    ensures |sorted| >= SHOWN && forall i :: 0 <= i < SHOWN ==> sorted[i].created > r.created
  {
    assert Listed(sorted, r.id);
    var j :| 0 <= j < |sorted| && sorted[j].id == r.id;
    assert sorted[j] in all && sorted[j].created == r.created;
    assert forall m :: 0 <= m < |Truncated(sorted)| ==> sorted[m].id != r.id;
  }

  lemma Absent(records: set<Run>, shown: seq<Run>, r: Run)
    requires IsTop(records, shown) && r in records && forall i :: 0 <= i < |shown| ==> shown[i].id != r.id
    ensures |shown| == SHOWN && shown[SHOWN - 1].created > r.created
  {
  }

  function Folded(responses: seq<View>): Option<View> {
    if responses == [] then None
    else Some(Merged(Folded(responses[..|responses| - 1]), responses[|responses| - 1]))
  }

  function Seen(responses: seq<View>): set<Run> {
    set v, r | v in responses && r in v.runs :: r
  }

  /** After any responses in any order the view is the top of everything ever received. */
  lemma {:induction false} FoldIsTop(responses: seq<View>)
    requires Consistent(Seen(responses)) && forall v :: v in responses ==> UniqueIds(v.runs)
    ensures IsTop(Seen(responses), Shown(Folded(responses)))
  {
    hide Merged, Newest, UniqueIds;
    if responses != [] {
      var rest, last := responses[..|responses| - 1], responses[|responses| - 1];
      assert responses == rest + [last];
      assert Seen(responses) == Seen(rest) + Records(last.runs);
      FoldIsTop(rest);
      MergeKeepsTop(Seen(rest), Folded(rest), last);
    }
  }

  /** The order in which responses arrive, and how often each does, makes no difference to the list shown. */
  lemma ArrivalOrderIsIrrelevant(a: seq<View>, b: seq<View>)
    requires (forall v :: v in a <==> v in b) && Consistent(Seen(a)) && forall v :: v in a ==> UniqueIds(v.runs)
    ensures Shown(Folded(a)) == Shown(Folded(b))
  {
    hide Consistent, IsTop, UniqueIds, Folded;
    assert Seen(a) == Seen(b);
    FoldIsTop(a);
    FoldIsTop(b);
    TopIsUnique(Seen(a), Shown(Folded(a)), Shown(Folded(b)));
  }

  /** No record on screen is ever replaced by an older one of its request, whatever the response holds. */
  lemma NeverOlder(current: Option<View>, incoming: View, i: nat, j: nat)
    requires i < |Shown(current)| && j < |Merged(current, incoming).runs|
    requires Shown(current)[i].id == Merged(current, incoming).runs[j].id
    ensures Merged(current, incoming).runs[j].updated >= Shown(current)[i].updated
  {
    hide Overlay, TableOf;
    var t := Joined(current, incoming);
    JoinedIsWellFormed(current, incoming);
    OverlayHolds(TableOf(incoming.runs), Shown(current));
    MergedRun(current, incoming, j);
    assert Shown(current)[i] in Shown(current);
  }

  lemma MergedRun(current: Option<View>, incoming: View, j: nat)
    requires j < |Merged(current, incoming).runs| && WellFormed(Joined(current, incoming))
    ensures var r := Merged(current, incoming).runs[j];
            r.id in Joined(current, incoming).records && r == Joined(current, incoming).records[r.id]
  {
    hide Joined;
    var values := Values(Joined(current, incoming));
    SameElements(values, ByCreation(values));
    assert Merged(current, incoming).runs[j] == ByCreation(values)[j];
    assert ByCreation(values)[j] in values;
  }

  /**
   The current release named is a success that was received or shown before, updated no earlier than any success
   shown (and created no earlier, if updated at the same instant); a rollback is offered only as the server offered it.
   */
  lemma CurrentIsNewestSuccess(current: Option<View>, incoming: View, j: nat)
    requires var r := Merged(current, incoming); j < |r.runs| && r.runs[j].succeeded
    ensures var r := Merged(current, incoming);
            && (r.rollback.Some? ==> r.current == incoming.current && r.rollback == incoming.rollback)
            && exists best :: (best in incoming.runs || (current.Some? && best in current.value.runs))
                 && best.succeeded && r.current == Some(best.id)
                 && (|| best.updated > r.runs[j].updated
                     || (best.updated == r.runs[j].updated && best.created >= r.runs[j].created))
  {
    hide Joined, ByCreation, Latest;
    var t := Joined(current, incoming);
    JoinedIsWellFormed(current, incoming);
    MergedRun(current, incoming, j);
    TableValues(t);
    assert Merged(current, incoming).runs[j] in Values(t);
    var best := Latest(Values(t)).value;
    assert best.id in t.records && t.records[best.id] == best;
    JoinedComesFrom(current, incoming, best.id);
  }

  lemma JoinedComesFrom(current: Option<View>, incoming: View, k: RequestId)
    requires k in Joined(current, incoming).records
    ensures var r := Joined(current, incoming).records[k];
            r in incoming.runs || (current.Some? && r in current.value.runs)
  {
    TableHolds(incoming.runs);
    OverlayHolds(TableOf(incoming.runs), Shown(current));
  }

  lemma TableValues(t: Table)
    requires WellFormed(t)
    ensures forall r :: r in Values(t) <==> r.id in t.records && t.records[r.id] == r
  {
    forall r: Run | r.id in t.records && t.records[r.id] == r ensures r in Values(t) {
      var i :| 0 <= i < |t.keys| && t.keys[i] == r.id;
      assert Values(t)[i] == r;
    }
  }
}
