/** The dependency order of a project's components: a depth-first search that finds an order or says why there is none. */
module ComponentOrder {
  import opened Basics
  import opened DeploymentModel

  datatype Node = Node(id: ComponentId, deps: seq<ComponentId>)

  datatype Problem = DuplicateComponent | UnknownDependency | DependencyCycle

  ghost predicate UniqueIds(nodes: seq<Node>) {
    forall i, j :: 0 <= i < j < |nodes| ==> nodes[i].id != nodes[j].id
  }

  ghost function Ids(nodes: seq<Node>): set<ComponentId> {
    set n | n in nodes :: n.id
  }

  ghost predicate Edge(nodes: seq<Node>, a: ComponentId, b: ComponentId) {
    exists n :: n in nodes && n.id == a && b in n.deps
  }

  /** Every dependency is a component of the project. */
  ghost predicate DependenciesKnown(nodes: seq<Node>) {
    forall a, b :: Edge(nodes, a, b) ==> b in Ids(nodes)
  }

  ghost predicate Walk(nodes: seq<Node>, path: seq<ComponentId>) {
    path != [] && forall i :: 0 <= i < |path| - 1 ==> Edge(nodes, path[i], path[i + 1])
  }

  ghost predicate Cyclic(nodes: seq<Node>) {
    exists path :: Walk(nodes, path) && |path| > 1 && path[0] == path[|path| - 1]
  }

  /** Each component after everything it depends on. */
  ghost predicate Ordered(nodes: seq<Node>, order: seq<ComponentId>) {
    && Distinct(order)
    && forall i, b :: 0 <= i < |order| && Edge(nodes, order[i], b) ==> b in order[..i]
  }

  /** A complete order rules out cycles: along a walk the position strictly falls. */
  lemma {:induction false} OrderedWalkFalls(nodes: seq<Node>, order: seq<ComponentId>, path: seq<ComponentId>, i: nat)
    returns (k: nat)
    requires Ordered(nodes, order) && Walk(nodes, path) && |path| > 1 && i < |order| && order[i] == path[0]
    ensures k < i && order[k] == path[|path| - 1]
    decreases |path|
  {
    assert Edge(nodes, path[0], path[0 + 1]);
    assert path[1] in order[..i];
    k :| 0 <= k < i && order[k] == path[1];
    if |path| > 2 {
      var rest := path[1..];
      forall n | 0 <= n < |rest| - 1 ensures Edge(nodes, rest[n], rest[n + 1]) {
        assert Edge(nodes, path[n + 1], path[n + 1 + 1]);
      }
      k := OrderedWalkFalls(nodes, order, rest, k);
    }
  }

  lemma OrderedIsAcyclic(nodes: seq<Node>, order: seq<ComponentId>)
    requires Ordered(nodes, order) && (forall x :: x in Ids(nodes) ==> x in order)
    ensures !Cyclic(nodes)
  {
    forall path | Walk(nodes, path) && |path| > 1 ensures path[0] != path[|path| - 1] {
      assert Edge(nodes, path[0], path[0 + 1]);
      assert path[0] in Ids(nodes) && path[0] in order;
      var i :| 0 <= i < |order| && order[i] == path[0];
      var k := OrderedWalkFalls(nodes, order, path, i);
    }
  }

  class Search {
    const nodes: seq<Node>
    var byId: map<ComponentId, Node>
    var visiting: set<ComponentId>
    var visited: set<ComponentId>
    var order: seq<ComponentId>

    ghost predicate Valid()
      reads this
    {
      && byId.Keys == Ids(nodes)
      && (forall x :: x in byId ==> byId[x] in nodes && byId[x].id == x)
      && UniqueIds(nodes)
      && visiting <= byId.Keys && visiting !! visited
      && (forall x :: x in visited <==> x in order) && visited <= byId.Keys
      && Ordered(nodes, order)
    }

    constructor (nodes: seq<Node>)
      ensures this.nodes == nodes && visiting == {} && visited == {} && order == []
      ensures byId.Keys == Ids(nodes) && (forall x :: x in byId ==> byId[x] in nodes && byId[x].id == x)
    {
      this.nodes := nodes;
      visiting, visited, order := {}, {}, [];
      new;
      byId := map[];
      for i := 0 to |nodes|
        invariant byId.Keys == Ids(nodes[..i]) && visiting == {} && visited == {} && order == []
        invariant forall x :: x in byId ==> byId[x] in nodes && byId[x].id == x
      {
        byId := byId[nodes[i].id := nodes[i]];
        assert nodes[..i + 1] == nodes[..i] + [nodes[i]];
      }
      assert nodes[..|nodes|] == nodes;
    }

    lemma EdgesOf(id: ComponentId, b: ComponentId)
      requires Valid() && id in byId
      ensures Edge(nodes, id, b) <==> b in byId[id].deps
    {
      if Edge(nodes, id, b) {
        var n :| n in nodes && n.id == id && b in n.deps;
        var i :| 0 <= i < |nodes| && nodes[i] == n;
        var j :| 0 <= j < |nodes| && nodes[j] == byId[id];
      }
    }

    /** `path` leads from the component being ordered to id; the components being visited are those before id on it. */
    method Visit(id: ComponentId, ghost path: seq<ComponentId>) returns (problem: Option<Problem>)
      requires Valid()
      requires Walk(nodes, path) && path[|path| - 1] == id
      requires forall x :: x in visiting <==> x in path[..|path| - 1]
      modifies this`visiting, this`visited, this`order
      ensures Valid() && old(order) <= order
      ensures problem.None? ==> visiting == old(visiting) && id in visited
      ensures visiting >= old(visiting)
      ensures problem == Some(UnknownDependency) ==> id !in Ids(nodes) || !DependenciesKnown(nodes)
      ensures problem == Some(DependencyCycle) ==> Cyclic(nodes)
      ensures problem != Some(DuplicateComponent)
      decreases byId.Keys - visiting
    {
      hide Walk, Cyclic, Ordered, Edge;
      if id !in byId { return Some(UnknownDependency); }
      if id in visiting {
        ghost var k :| 0 <= k < |path| - 1 && path[k] == id;
        LoopIsCyclic(nodes, path, k);
        return Some(DependencyCycle);
      }
      if id in visited { return None; }
      visiting := visiting + {id};
      var deps := byId[id].deps;
      for i := 0 to |deps|
        invariant Valid() && old(order) <= order && visiting == old(visiting) + {id}
        invariant forall k :: 0 <= k < i ==> deps[k] in visited
      {
        EdgesOf(id, deps[i]);
        LongerWalk(nodes, path, deps[i]);
        var nested := Visit(deps[i], path + [deps[i]]);
        if nested.Some? {
          return nested;
        }
      }
      visiting := visiting - {id};
      AppendOrdered(nodes, order, id) by {
        forall b | Edge(nodes, id, b) ensures b in order {
          EdgesOf(id, b);
        }
      }
      visited := visited + {id};
      order := order + [id];
      return None;
    }

    /** The order of every component, or the reason there is none. */
    method Run() returns (r: Result<seq<ComponentId>, Problem>)
      requires Valid() && visiting == {} && visited == {} && order == []
      modifies this`visiting, this`visited, this`order
      ensures r.Ok? ==> Ordered(nodes, r.value) && (forall x :: x in r.value <==> x in Ids(nodes))
      ensures r == Err(UnknownDependency) ==> !DependenciesKnown(nodes)
      ensures r == Err(DependencyCycle) ==> Cyclic(nodes)
      ensures r != Err(DuplicateComponent)
    {
      for i := 0 to |nodes|
        invariant Valid() && visiting == {}
        invariant forall k :: 0 <= k < i ==> nodes[k].id in visited
      {
        var problem := Visit(nodes[i].id, [nodes[i].id]);
        if problem.Some? {
          return Err(problem.value);
        }
      }
      forall x | x in Ids(nodes) ensures x in visited {
        var n :| n in nodes && n.id == x;
        var k :| 0 <= k < |nodes| && nodes[k] == n;
      }
      return Ok(order);
    }
  }

  lemma LoopIsCyclic(nodes: seq<Node>, path: seq<ComponentId>, k: nat)
    requires Walk(nodes, path) && k < |path| - 1 && path[k] == path[|path| - 1]
    ensures Cyclic(nodes)
  {
    var loop := path[k..];
    forall n | 0 <= n < |loop| - 1 ensures Edge(nodes, loop[n], loop[n + 1]) {
      assert Edge(nodes, path[k + n], path[k + n + 1]);
    }
    assert Walk(nodes, loop);
  }

  lemma LongerWalk(nodes: seq<Node>, path: seq<ComponentId>, b: ComponentId)
    requires Walk(nodes, path) && Edge(nodes, path[|path| - 1], b)
    ensures Walk(nodes, path + [b]) && (path + [b])[..|path|] == path
    ensures path == path[..|path| - 1] + [path[|path| - 1]]
  {
    var longer := path + [b];
    forall n | 0 <= n < |longer| - 1 ensures Edge(nodes, longer[n], longer[n + 1]) {
      if n < |path| - 1 {
        assert Edge(nodes, path[n], path[n + 1]);
      }
    }
  }

  lemma AppendOrdered(nodes: seq<Node>, order: seq<ComponentId>, id: ComponentId)
    requires Ordered(nodes, order) && id !in order && forall b :: Edge(nodes, id, b) ==> b in order
    ensures Ordered(nodes, order + [id])
  {
    var longer := order + [id];
    forall i, b | 0 <= i < |longer| && Edge(nodes, longer[i], b) ensures b in longer[..i] {
      assert longer[..i] == order[..i];
    }
  }

  /** What the schema check of a project promises: an order exists exactly for distinct, known, acyclic components. */
  method Order(nodes: seq<Node>) returns (r: Result<seq<ComponentId>, Problem>)
    ensures r.Ok? <==> UniqueIds(nodes) && DependenciesKnown(nodes) && !Cyclic(nodes)
    ensures r.Ok? ==> Ordered(nodes, r.value) && forall x :: x in r.value <==> x in Ids(nodes)
    ensures r == Err(DuplicateComponent) <==> !UniqueIds(nodes)
    ensures r == Err(UnknownDependency) ==> !DependenciesKnown(nodes)
    ensures r == Err(DependencyCycle) ==> Cyclic(nodes)
  {
    var search := new Search(nodes);
    if |search.byId| != |nodes| {
      CountsDiffer(nodes, search.byId.Keys);
      return Err(DuplicateComponent);
    }
    CountsAgree(nodes);
    r := search.Run();
    if r.Ok? {
      OrderedIsAcyclic(nodes, r.value);
      forall a, b | Edge(nodes, a, b) ensures b in Ids(nodes) {
        var n :| n in nodes && n.id == a && b in n.deps;
        assert a in Ids(nodes);
        var i :| 0 <= i < |r.value| && r.value[i] == a;
        assert b in r.value[..i];
      }
      assert DependenciesKnown(nodes);
    } else {
      assert r.error == UnknownDependency || r.error == DependencyCycle;
    }
  }

  lemma {:induction false} CountsDiffer(nodes: seq<Node>, ids: set<ComponentId>)
    requires ids == Ids(nodes)
    ensures |ids| <= |nodes|
    ensures UniqueIds(nodes) ==> |ids| == |nodes|
  {
    if nodes != [] {
      var rest, last := nodes[..|nodes| - 1], nodes[|nodes| - 1];
      assert nodes == rest + [last];
      CountsDiffer(rest, Ids(rest));
      assert ids == Ids(rest) + {last.id};
    }
  }

  lemma {:induction false} CountsAgree(nodes: seq<Node>)
    requires |Ids(nodes)| == |nodes|
    ensures UniqueIds(nodes)
  {
    if nodes != [] {
      var rest, last := nodes[..|nodes| - 1], nodes[|nodes| - 1];
      assert nodes == rest + [last];
      CountsDiffer(rest, Ids(rest));
      assert Ids(nodes) == Ids(rest) + {last.id};
      CountsAgree(rest);
      forall i, j | 0 <= i < j < |nodes| ensures nodes[i].id != nodes[j].id {
        if j == |nodes| - 1 {
          assert nodes[i] in rest;
        }
      }
    }
  }

  /** Such an order is what a project's configuration carries. */
  lemma OrderIsTopological(nodes: seq<Node>, specs: map<ComponentId, Spec>, order: seq<ComponentId>)
    requires Ordered(nodes, order) && (forall x :: x in order <==> x in Ids(nodes)) && specs.Keys == Ids(nodes)
    requires forall n :: n in nodes ==> specs[n.id].deps == (set d | d in n.deps)
    ensures Topological(order, specs)
  {
    forall i, x | 0 <= i < |order| && x in specs[order[i]].deps ensures x in order[..i] {
      assert order[i] in Ids(nodes);
      var n :| n in nodes && n.id == order[i];
      assert Edge(nodes, order[i], x);
    }
  }
}
