/** The network drawing: every agent gets one place, under its parent where that is possible. */
module AgentPlacement {
  import opened Basics

  type AgentId = nat

  datatype Agent = Agent(id: AgentId, parent: Option<AgentId>)

  const DEPTH: nat := 20

  ghost predicate DistinctIds(agents: seq<Agent>) {
    forall i, j :: 0 <= i < j < |agents| ==> agents[i].id != agents[j].id
  }

  predicate Listed(agents: seq<Agent>, id: AgentId) {
    exists a :: a in agents && a.id == id
  }

  /** Nothing above it is in the list. */
  predicate Root(agents: seq<Agent>, a: Agent) {
    a.parent.None? || !Listed(agents, a.parent.value)
  }

  /** The agent k levels above x, if the list reaches that far. */
  ghost function Above(agents: seq<Agent>, x: AgentId, k: nat): Option<AgentId> {
    if k == 0 then (if Listed(agents, x) then Some(x) else None)
    else
      var below := Above(agents, x, k - 1);
      if below.None? then None else ParentOf(agents, below.value)
  }

  ghost function ParentOf(agents: seq<Agent>, x: AgentId): Option<AgentId> {
    if exists a :: a in agents && a.id == x then
      var a :| a in agents && a.id == x;
      if Root(agents, a) then None else a.parent
    else None
  }

  lemma ParentIs(agents: seq<Agent>, a: Agent)
    requires DistinctIds(agents) && a in agents
    ensures ParentOf(agents, a.id) == if Root(agents, a) then None else a.parent
  {
    assert forall b :: b in agents && b.id == a.id ==> b == a;
  }

  /** x is on level n: going up n times reaches an agent with nothing above it. */
  ghost predicate Level(agents: seq<Agent>, x: AgentId, n: nat) {
    Above(agents, x, n).Some? && Above(agents, x, n + 1).None?
  }

  lemma {:induction false} AboveAdds(agents: seq<Agent>, x: AgentId, k: nat, y: AgentId, n: nat)
    requires Above(agents, x, k) == Some(y) && Listed(agents, y)
    ensures Above(agents, x, k + n) == Above(agents, y, n)
  {
    if n > 0 {
      AboveAdds(agents, x, k, y, n - 1);
    }
  }

  lemma {:induction false} AboveIsListed(agents: seq<Agent>, x: AgentId, k: nat)
    ensures Above(agents, x, k).Some? ==> Listed(agents, Above(agents, x, k).value)
  {
    if k > 0 {
      AboveIsListed(agents, x, k - 1);
    }
  }

  lemma {:induction false} BeyondTheTop(agents: seq<Agent>, x: AgentId, n: nat, m: nat)
    requires Above(agents, x, n).None? && n <= m
    ensures Above(agents, x, m).None?
  {
    if n < m {
      BeyondTheTop(agents, x, n, m - 1);
    }
  }

  /** Everything on the way up from x to a is as far above x as it is above a. */
  lemma LevelsAdd(agents: seq<Agent>, x: AgentId, k: nat, a: AgentId, n: nat)
    requires Above(agents, x, k) == Some(a)
    ensures Level(agents, a, n) <==> Level(agents, x, k + n)
  {
    AboveIsListed(agents, x, k);
    AboveAdds(agents, x, k, a, n);
    AboveAdds(agents, x, k, a, n + 1);
  }

  lemma LevelIsUnique(agents: seq<Agent>, x: AgentId, n: nat, m: nat)
    requires Level(agents, x, n) && Level(agents, x, m)
    ensures n == m
  {
    if n < m {
      BeyondTheTop(agents, x, n + 1, m);
    } else if m < n {
      BeyondTheTop(agents, x, m + 1, n);
    }
  }

  // ---------- Placing ----------

  function Children(agents: seq<Agent>, parent: AgentId): (r: seq<Agent>)
    ensures forall a :: a in r <==> a in agents && a.parent == Some(parent)
    ensures DistinctIds(agents) ==> DistinctIds(r)
  {
    if agents == [] then []
    else (if agents[0].parent == Some(parent) then [agents[0]] else []) + Children(agents[1..], parent)
  }

  /** x lies at most `reach` levels below a. */
  ghost predicate Under(agents: seq<Agent>, x: AgentId, a: AgentId, reach: int) {
    exists k :: 0 <= k <= reach && Above(agents, x, k) == Some(a)
  }

  /** Nothing within reach of a has a place yet. */
  ghost predicate Clear(agents: seq<Agent>, a: AgentId, placed: set<AgentId>, reach: int) {
    forall x :: Under(agents, x, a, reach) ==> x !in placed
  }

  lemma ItselfUnder(agents: seq<Agent>, a: Agent, reach: int)
    requires a in agents
    ensures Above(agents, a.id, 0) == Some(a.id) && (Under(agents, a.id, a.id, reach) <==> reach >= 0)
  {
    assert Listed(agents, a.id);
  }

  lemma ChildIsOneBelow(agents: seq<Agent>, a: Agent, c: Agent, x: AgentId, k: nat)
    requires DistinctIds(agents) && a in agents && c in agents && c.parent == Some(a.id)
    requires Above(agents, x, k) == Some(c.id)
    ensures Above(agents, x, k + 1) == Some(a.id)
  {
    ParentIs(agents, c);
    assert Listed(agents, a.id);
  }

  lemma ChildrenAreUnder(agents: seq<Agent>, a: Agent, c: Agent, reach: int)
    requires DistinctIds(agents) && a in agents && c in agents && c.parent == Some(a.id)
    ensures forall x :: Under(agents, x, c.id, reach - 1) ==> Under(agents, x, a.id, reach)
  {
    forall x | Under(agents, x, c.id, reach - 1) ensures Under(agents, x, a.id, reach) {
      var k :| 0 <= k <= reach - 1 && Above(agents, x, k) == Some(c.id);
      ChildIsOneBelow(agents, a, c, x, k);
    }
  }

  lemma UnderThroughChild(agents: seq<Agent>, a: Agent, x: AgentId, reach: int)
    requires DistinctIds(agents) && a in agents && Under(agents, x, a.id, reach) && x != a.id
    ensures exists c :: c in Children(agents, a.id) && Under(agents, x, c.id, reach - 1)
  {
    var k :| 0 <= k <= reach && Above(agents, x, k) == Some(a.id);
    AboveIsListed(agents, x, k - 1);
    var c :| c in agents && c.id == Above(agents, x, k - 1).value;
    ParentIs(agents, c);
    assert Under(agents, x, c.id, reach - 1);
  }

  /** Nothing is below two agents of one level. */
  lemma OnePerLevel(agents: seq<Agent>, x: AgentId, a: AgentId, b: AgentId, n: nat, reach: int)
    requires Level(agents, a, n) && Level(agents, b, n) && Under(agents, x, a, reach) && Under(agents, x, b, reach)
    ensures a == b
  {
    var k :| 0 <= k <= reach && Above(agents, x, k) == Some(a);
    var l :| 0 <= l <= reach && Above(agents, x, l) == Some(b);
    LevelsAdd(agents, x, k, a, n);
    LevelsAdd(agents, x, l, b, n);
    LevelIsUnique(agents, x, k + n, l + n);
  }

  lemma ChildLevel(agents: seq<Agent>, a: Agent, c: Agent, n: nat)
    requires DistinctIds(agents) && a in agents && c in agents && c.parent == Some(a.id) && Level(agents, a.id, n)
    ensures Level(agents, c.id, n + 1)
  {
    assert Listed(agents, c.id);
    ChildIsOneBelow(agents, a, c, c.id, 0);
    LevelsAdd(agents, c.id, 1, a.id, n);
  }

  lemma NotUnderItsChild(agents: seq<Agent>, a: AgentId, c: AgentId, n: nat, reach: int)
    requires Level(agents, a, n) && Level(agents, c, n + 1)
    ensures !Under(agents, a, c, reach)
  {
    forall k | 0 <= k <= reach ensures Above(agents, a, k) != Some(c) {
      if Above(agents, a, k) == Some(c) {
        LevelsAdd(agents, a, k, c, n + 1);
        LevelIsUnique(agents, a, n, k + n + 1);
      }
    }
  }

  /** What placing the first i children of an agent has added. */
  ghost predicate Added(agents: seq<Agent>, a: AgentId, children: seq<Agent>, i: nat, reach: int,
                        before: set<AgentId>, after: set<AgentId>)
    requires i <= |children|
  {
    forall x :: x in after && x !in before ==> x == a || exists j :: 0 <= j < i && Under(agents, x, children[j].id, reach)
  }

  ghost predicate Filled(agents: seq<Agent>, children: seq<Agent>, i: nat, reach: int, placed: set<AgentId>)
    requires i <= |children|
  {
    forall j, x :: 0 <= j < i && Under(agents, x, children[j].id, reach) ==> x in placed
  }

  lemma NextChildIsClear(agents: seq<Agent>, a: Agent, i: nat, reach: int, n: nat, before: set<AgentId>, placed: set<AgentId>)
    requires DistinctIds(agents) && a in agents && i < |Children(agents, a.id)|
    requires Level(agents, a.id, n) && Clear(agents, a.id, before, reach)
    requires Added(agents, a.id, Children(agents, a.id), i, reach - 1, before, placed)
    ensures Level(agents, Children(agents, a.id)[i].id, n + 1)
    ensures Clear(agents, Children(agents, a.id)[i].id, placed, reach - 1)
  {
    hide Under, Level;
    var children := Children(agents, a.id);
    var c := children[i];
    ChildLevel(agents, a, c, n);
    ChildrenAreUnder(agents, a, c, reach);
    NotUnderItsChild(agents, a.id, c.id, n, reach - 1);
    forall x | Under(agents, x, c.id, reach - 1) ensures x !in placed {
      forall j | 0 <= j < i ensures !Under(agents, x, children[j].id, reach - 1) {
        ChildLevel(agents, a, children[j], n);
        if Under(agents, x, children[j].id, reach - 1) {
          OnePerLevel(agents, x, c.id, children[j].id, n + 1, reach - 1);
        }
      }
    }
  }

  lemma AllFilled(agents: seq<Agent>, a: Agent, reach: int, placed: set<AgentId>)
    requires DistinctIds(agents) && a in agents && a.id in placed
    requires Filled(agents, Children(agents, a.id), |Children(agents, a.id)|, reach - 1, placed)
    ensures forall x :: Under(agents, x, a.id, reach) ==> x in placed
  {
    hide Under;
    var children := Children(agents, a.id);
    forall x | Under(agents, x, a.id, reach) ensures x in placed {
      if x != a.id {
        UnderThroughChild(agents, a, x, reach);
        var c :| c in children && Under(agents, x, c.id, reach - 1);
        var j :| 0 <= j < |children| && children[j] == c;
      }
    }
  }

  class Layout {
    var placed: set<AgentId>
    // The agents in the order in which their positions were set.
    var positions: seq<AgentId>

    ghost predicate Valid()
      reads this
    {
      Lists(positions, placed)
    }

    constructor ()
      ensures Valid() && placed == {} && positions == []
    {
      placed, positions := {}, [];
    }

    /**
     Place an agent and, around it, whatever is below it and still within reach. Whatever the list looks
     like this ends, sets no position twice and reaches nothing else; below an agent on its own level it
     leaves nothing out.
     */
    method Place(agents: seq<Agent>, a: Agent, depth: nat)
      requires Valid() && DistinctIds(agents) && a in agents
      modifies this
      ensures Valid() && old(placed) <= placed && old(positions) <= positions
      ensures depth <= DEPTH ==> a.id in placed
      ensures forall x :: x in placed && x !in old(placed) ==> Under(agents, x, a.id, DEPTH - depth)
      ensures Level(agents, a.id, depth) && Clear(agents, a.id, old(placed), DEPTH - depth) ==>
                forall x :: Under(agents, x, a.id, DEPTH - depth) ==> x in placed
      decreases DEPTH + 1 - depth
    {
      hide Under, Level, Above;
      ItselfUnder(agents, a, DEPTH - depth);
      NothingOutOfReach(agents, a.id, DEPTH - depth);
      if a.id in placed || depth > DEPTH { return; }
      ghost var before, reach := placed, DEPTH - depth;
      ghost var clear := Level(agents, a.id, depth) && Clear(agents, a.id, before, reach);
      placed := placed + {a.id};
      positions := positions + [a.id];
      var children := Children(agents, a.id);
      for i := 0 to |children|
        invariant Valid() && before + {a.id} <= placed && old(positions) <= positions
        invariant Added(agents, a.id, children, i, reach - 1, before, placed)
        invariant clear ==> Filled(agents, children, i, reach - 1, placed)
      {
        if clear {
          NextChildIsClear(agents, a, i, reach, depth, before, placed);
        }
        Place(agents, children[i], depth + 1);
      }
      if clear {
        AllFilled(agents, a, reach, placed);
      }
      AddedIsUnder(agents, a, |children|, reach, before, placed);
    }
  }

  lemma NothingOutOfReach(agents: seq<Agent>, a: AgentId, reach: int)
    ensures reach < 0 ==> forall x :: !Under(agents, x, a, reach)
  {
  }

  lemma AddedIsUnder(agents: seq<Agent>, a: Agent, i: nat, reach: int, before: set<AgentId>, after: set<AgentId>)
    requires DistinctIds(agents) && a in agents && reach >= 0 && i <= |Children(agents, a.id)|
    requires Added(agents, a.id, Children(agents, a.id), i, reach - 1, before, after)
    ensures forall x :: x in after && x !in before ==> Under(agents, x, a.id, reach)
  {
    hide Under;
    ItselfUnder(agents, a, reach);
    forall x | x in after && x !in before && x != a.id ensures Under(agents, x, a.id, reach) {
      var j :| 0 <= j < i && Under(agents, x, Children(agents, a.id)[j].id, reach - 1);
      ChildrenAreUnder(agents, a, Children(agents, a.id)[j], reach);
    }
  }

  // ---------- The whole drawing ----------

  function Roots(agents: seq<Agent>, all: seq<Agent>): (r: seq<Agent>)
    ensures forall a :: a in r <==> a in agents && Root(all, a)
    ensures DistinctIds(agents) ==> DistinctIds(r)
  {
    if agents == [] then []
    else
      var rest := Roots(agents[1..], all);
      assert DistinctIds(agents) ==> forall a :: a in rest ==> a.id != agents[0].id;
      (if Root(all, agents[0]) then [agents[0]] else []) + rest
  }

  function Missing(agents: seq<Agent>, placed: set<AgentId>): (r: seq<Agent>)
    ensures forall a :: a in r <==> a in agents && a.id !in placed
  {
    if agents == [] then []
    else (if agents[0].id in placed then [] else [agents[0]]) + Missing(agents[1..], placed)
  }

  /** The agents that are drawn in their place in the hierarchy: those at most twenty levels below a root. */
  ghost predicate InHierarchy(agents: seq<Agent>, x: AgentId) {
    exists n :: 0 <= n <= DEPTH && Level(agents, x, n)
  }

  lemma RootLevel(agents: seq<Agent>, a: Agent)
    requires DistinctIds(agents) && a in agents
    ensures Level(agents, a.id, 0) <==> Root(agents, a)
  {
    ParentIs(agents, a);
    assert Listed(agents, a.id);
  }

  /** An agent whose parent is not in the list is on the top level, and any other one level below its parent. */
  lemma LevelsFollowParents(agents: seq<Agent>, a: Agent, n: nat)
    requires DistinctIds(agents) && a in agents
    ensures Level(agents, a.id, 0) <==> forall b :: b in agents ==> a.parent != Some(b.id)
    ensures Level(agents, a.id, n + 1) <==> exists b :: b in agents && a.parent == Some(b.id) && Level(agents, b.id, n)
  {
    hide Level;
    RootLevel(agents, a);
    if b :| b in agents && a.parent == Some(b.id) {
      ChildIsOneBelow(agents, b, a, a.id, 0) by { ItselfUnder(agents, a, 0); }
      LevelsAdd(agents, a.id, 1, b.id, n);
      assert forall c :: c in agents && a.parent == Some(c.id) ==> c.id == b.id;
    } else if Level(agents, a.id, n + 1) {
      LevelIsUnique(agents, a.id, 0, n + 1);
    }
  }

  lemma UnderRoot(agents: seq<Agent>, x: AgentId)
    requires DistinctIds(agents)
    ensures InHierarchy(agents, x) <==> exists a :: a in Roots(agents, agents) && Under(agents, x, a.id, DEPTH)
  {
    if n: nat :| n <= DEPTH && Level(agents, x, n) {
      AboveIsListed(agents, x, n);
      var a :| a in agents && a.id == Above(agents, x, n).value;
      LevelsAdd(agents, x, n, a.id, 0);
      RootLevel(agents, a);
      assert Under(agents, x, a.id, DEPTH);
    }
    if a :| a in Roots(agents, agents) && Under(agents, x, a.id, DEPTH) {
      var k :| 0 <= k <= DEPTH && Above(agents, x, k) == Some(a.id);
      RootLevel(agents, a);
      LevelsAdd(agents, x, k, a.id, 0);
      assert Level(agents, x, k);
    }
  }

  ghost predicate UnderFirst(agents: seq<Agent>, roots: seq<Agent>, i: nat, x: AgentId)
    requires i <= |roots|
  {
    exists j :: 0 <= j < i && Under(agents, x, roots[j].id, DEPTH)
  }

  lemma NextRootIsClear(agents: seq<Agent>, roots: seq<Agent>, i: nat, placed: set<AgentId>)
    requires DistinctIds(agents) && DistinctIds(roots) && i < |roots|
    requires forall a :: a in roots ==> a in agents && Root(agents, a)
    requires forall x :: x in placed <==> UnderFirst(agents, roots, i, x)
    ensures Level(agents, roots[i].id, 0) && Clear(agents, roots[i].id, placed, DEPTH)
  {
    hide Under, Level, Root;
    RootLevel(agents, roots[i]);
    forall x | Under(agents, x, roots[i].id, DEPTH) ensures x !in placed {
      forall j | 0 <= j < i ensures !Under(agents, x, roots[j].id, DEPTH) {
        RootLevel(agents, roots[j]);
        if Under(agents, x, roots[j].id, DEPTH) {
          OnePerLevel(agents, x, roots[i].id, roots[j].id, 0, DEPTH);
        }
      }
    }
  }

  /** First pass: exactly the agents within twenty levels of a root are placed, each under its parent. */
  method PlaceRoots(agents: seq<Agent>, layout: Layout)
    requires layout.Valid() && layout.placed == {} && DistinctIds(agents)
    modifies layout
    ensures layout.Valid() && forall x :: x in layout.placed <==> InHierarchy(agents, x)
  {
    hide Under, Level, Root;
    var roots := Roots(agents, agents);
    for i := 0 to |roots|
      invariant layout.Valid() && forall x :: x in layout.placed <==> UnderFirst(agents, roots, i, x)
    {
      NextRootIsClear(agents, roots, i, layout.placed);
      layout.Place(agents, roots[i], 0);
    }
    forall x ensures x in layout.placed <==> InHierarchy(agents, x) {
      UnderRoot(agents, x);
    }
  }

  lemma HierarchyIsListed(agents: seq<Agent>, x: AgentId)
    requires InHierarchy(agents, x)
    ensures Listed(agents, x)
  {
    var n: nat :| n <= DEPTH && Level(agents, x, n);
    if !Listed(agents, x) {
      BeyondTheTop(agents, x, 0, n);
    }
  }

  lemma UnderIsListed(agents: seq<Agent>, x: AgentId, a: AgentId, reach: int)
    ensures Under(agents, x, a, reach) ==> Listed(agents, x)
  {
    if Under(agents, x, a, reach) {
      var k :| 0 <= k <= reach && Above(agents, x, k) == Some(a);
      if !Listed(agents, x) {
        BeyondTheTop(agents, x, 0, k);
      }
    }
  }

  /**
   Every agent gets exactly one position, set once, whatever cycles, missing parents or long chains the
   list holds; those the first pass cannot reach are placed as if they were roots.
   */
  method AgentPositions(agents: seq<Agent>) returns (positions: seq<AgentId>)
    requires DistinctIds(agents)
    ensures Distinct(positions) && forall x :: x in positions <==> Listed(agents, x)
    ensures exists n :: 0 <= n <= |positions| && forall x :: x in positions[..n] <==> InHierarchy(agents, x)
  {
    hide Under, Level, Root, InHierarchy;
    var layout := new Layout();
    PlaceRoots(agents, layout);
    ghost var first := layout.positions;
    forall x | x in layout.placed ensures Listed(agents, x) {
      HierarchyIsListed(agents, x);
    }
    var rest := Missing(agents, layout.placed);
    for i := 0 to |rest|
      invariant layout.Valid() && (forall x :: x in layout.placed ==> Listed(agents, x))
      invariant first <= layout.positions
      invariant forall a :: a in agents ==> a.id in layout.placed || a in rest[i..]
    {
      ghost var before := layout.placed;
      layout.Place(agents, rest[i], 0);
      forall x | x in layout.placed ensures Listed(agents, x) {
        UnderIsListed(agents, x, rest[i].id, DEPTH);
      }
      assert forall a :: a in rest[i..] ==> a == rest[i] || a in rest[i + 1..];
    }
    positions := layout.positions;
    assert positions[..|first|] == first;
  }
}
