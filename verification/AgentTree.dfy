/** The agents of a workspace and who reports to whom: saving one walks up from its new parent first. */
module AgentTree {
  import opened Basics

  type AgentId = nat
  type WorkspaceId = nat

  datatype Agent = Agent(actor: Actor, workspace: WorkspaceId, parent: Option<AgentId>, revision: nat, details: nat)
  type Agents = map<AgentId, Agent>

  datatype Problem = AccessDenied | NotFound | RevisionChanged | ParentCycle | ParentNotFound | StorageFailure

  /** An agent that this actor may name in this workspace. */
  predicate Owned(agents: Agents, a: AgentId, actor: Actor, workspace: WorkspaceId) {
    a in agents && agents[a].actor == actor && agents[a].workspace == workspace
  }

  /** Going up from `from` through owned agents passes exactly `path` and arrives at `to`. */
  ghost predicate Climbs(agents: Agents, actor: Actor, workspace: WorkspaceId, from: Option<AgentId>, path: seq<AgentId>,
                         to: Option<AgentId>)
    decreases |path|
  {
    if path == [] then from == to
    else
      && from == Some(path[0]) && Owned(agents, path[0], actor, workspace)
      && Climbs(agents, actor, workspace, agents[path[0]].parent, path[1..], to)
  }

  /** Going up ends. */
  ghost predicate Ends(agents: Agents, actor: Actor, workspace: WorkspaceId, from: Option<AgentId>, path: seq<AgentId>) {
    Climbs(agents, actor, workspace, from, path, None)
  }

  /** Every agent's chain of parents ends and stays with one actor in one workspace. */
  ghost predicate Forest(agents: Agents) {
    forall a :: a in agents ==> exists path :: Ends(agents, agents[a].actor, agents[a].workspace, Some(a), path)
  }


  // ---------- Chains ----------

  lemma {:induction false} ClimbFurther(agents: Agents, actor: Actor, workspace: WorkspaceId, from: Option<AgentId>,
                                        path: seq<AgentId>, mid: Option<AgentId>, more: seq<AgentId>, to: Option<AgentId>)
    requires Climbs(agents, actor, workspace, from, path, mid) && Climbs(agents, actor, workspace, mid, more, to)
    ensures Climbs(agents, actor, workspace, from, path + more, to)
    decreases |path|
  {
    if path == [] {
      assert path + more == more;
    } else {
      assert (path + more)[0] == path[0] && (path + more)[1..] == path[1..] + more;
      ClimbFurther(agents, actor, workspace, agents[path[0]].parent, path[1..], mid, more, to);
    }
  }

  lemma {:induction false} ClimbPart(agents: Agents, actor: Actor, workspace: WorkspaceId, from: Option<AgentId>,
                                     path: seq<AgentId>, to: Option<AgentId>, i: nat)
    requires Climbs(agents, actor, workspace, from, path, to) && i < |path|
    ensures Owned(agents, path[i], actor, workspace)
    ensures Climbs(agents, actor, workspace, Some(path[i]), path[i..], to)
    ensures Climbs(agents, actor, workspace, from, path[..i], Some(path[i]))
    ensures Climbs(agents, actor, workspace, from, path[..i + 1], agents[path[i]].parent)
    decreases |path|
  {
    if i == 0 {
      assert path[0..] == path && path[..1] == [path[0]];
    } else {
      ClimbPart(agents, actor, workspace, agents[path[0]].parent, path[1..], to, i - 1);
      assert path[1..][i - 1..] == path[i..] && path[1..][i - 1] == path[i];
      assert path[..i][1..] == path[1..][..i - 1] && path[..i + 1][1..] == path[1..][..i];
    }
  }

  /** There is one way up. */
  lemma {:induction false} OneWayUp(agents: Agents, actor: Actor, workspace: WorkspaceId, from: Option<AgentId>,
                                    p: seq<AgentId>, q: seq<AgentId>)
    requires Ends(agents, actor, workspace, from, p) && Ends(agents, actor, workspace, from, q)
    ensures p == q
    decreases |p|
  {
    if p != [] {
      OneWayUp(agents, actor, workspace, agents[p[0]].parent, p[1..], q[1..]);
      assert p == [p[0]] + p[1..] && q == [q[0]] + q[1..];
    }
  }

  /** A chain that ends passes no agent twice. */
  lemma EndedChainHasNoCycle(agents: Agents, actor: Actor, workspace: WorkspaceId, from: Option<AgentId>, path: seq<AgentId>)
    requires Ends(agents, actor, workspace, from, path)
    ensures Distinct(path)
  {
    forall i, j | 0 <= i < j < |path| ensures path[i] != path[j] {
      ClimbPart(agents, actor, workspace, from, path, None, i);
      ClimbPart(agents, actor, workspace, from, path, None, j);
      if path[i] == path[j] {
        OneWayUp(agents, actor, workspace, Some(path[i]), path[i..], path[j..]);
      }
    }
  }

  /** So in a forest no agent is its own ancestor. */
  lemma NoCycles(agents: Agents, a: AgentId, path: seq<AgentId>)
    requires Forest(agents) && a in agents && path != []
    ensures !Climbs(agents, agents[a].actor, agents[a].workspace, Some(a), path, Some(a))
  {
    var actor, workspace := agents[a].actor, agents[a].workspace;
    assert a in agents;
    var up :| Ends(agents, actor, workspace, Some(a), up);
    if Climbs(agents, actor, workspace, Some(a), path, Some(a)) {
      ClimbFurther(agents, actor, workspace, Some(a), path, Some(a), up, None);
      OneWayUp(agents, actor, workspace, Some(a), up, path + up);
    }
  }

  /** And every parent is there, with the actor and the workspace of the agent below it. */
  lemma ParentsStayWithTheirActor(agents: Agents, a: AgentId)
    requires Forest(agents) && a in agents && agents[a].parent.Some?
    ensures var p := agents[a].parent.value;
            p in agents && p != a && agents[p].actor == agents[a].actor && agents[p].workspace == agents[a].workspace
  {
    var actor, workspace := agents[a].actor, agents[a].workspace;
    var up :| Ends(agents, actor, workspace, Some(a), up);
    assert Climbs(agents, actor, workspace, agents[a].parent, up[1..], None);
    assert up[1..] != [] && Owned(agents, up[1..][0], actor, workspace);
    assert up[0] == a && up[1] == agents[a].parent.value;
    EndedChainHasNoCycle(agents, actor, workspace, Some(a), up);
  }

  /** A climb is the beginning of any chain that ends. */
  lemma {:induction false} ClimbIsPrefix(agents: Agents, actor: Actor, workspace: WorkspaceId, from: Option<AgentId>,
                                         path: seq<AgentId>, to: Option<AgentId>, whole: seq<AgentId>)
    requires Climbs(agents, actor, workspace, from, path, to) && Ends(agents, actor, workspace, from, whole)
    ensures path <= whole && Ends(agents, actor, workspace, to, whole[|path|..])
    decreases |path|
  {
    if path == [] {
      assert whole[0..] == whole;
    } else {
      ClimbIsPrefix(agents, actor, workspace, agents[path[0]].parent, path[1..], to, whole[1..]);
      assert whole[1..][|path| - 1..] == whole[|path|..];
      assert path == [path[0]] + path[1..] && whole == [whole[0]] + whole[1..];
    }
  }

  // ---------- The walk ----------

  /** The new parent's chain ends and does not come through the agent itself. */
  ghost predicate MayReportTo(agents: Agents, actor: Actor, workspace: WorkspaceId, a: AgentId, parent: Option<AgentId>) {
    exists path :: Ends(agents, actor, workspace, parent, path) && a !in path
  }

  /** Going up meets an agent a second time, or the agent being saved. */
  ghost predicate Returns(agents: Agents, actor: Actor, workspace: WorkspaceId, a: AgentId, parent: Option<AgentId>) {
    exists path, x :: Climbs(agents, actor, workspace, parent, path, Some(x)) && (x == a || x in path)
  }

  /** Going up meets an agent that is missing or somebody else's. */
  ghost predicate Strays(agents: Agents, actor: Actor, workspace: WorkspaceId, parent: Option<AgentId>) {
    exists path, x :: Climbs(agents, actor, workspace, parent, path, Some(x)) && !Owned(agents, x, actor, workspace)
  }

  lemma ReturnRefutes(agents: Agents, actor: Actor, workspace: WorkspaceId, a: AgentId, parent: Option<AgentId>,
                      path: seq<AgentId>, x: AgentId, whole: seq<AgentId>)
    requires Climbs(agents, actor, workspace, parent, path, Some(x)) && Ends(agents, actor, workspace, parent, whole)
    ensures x in whole && x !in path
  {
    ClimbIsPrefix(agents, actor, workspace, parent, path, Some(x), whole);
    EndedChainHasNoCycle(agents, actor, workspace, parent, whole);
    assert whole[|path|] == x;
  }

  /** Terminates on whatever is stored, cycles included, and allows exactly the parents whose chain is sound. */
  method Walk(agents: Agents, actor: Actor, workspace: WorkspaceId, a: AgentId, proposed: Option<AgentId>)
    returns (problem: Option<Problem>)
    ensures problem.None? <==> MayReportTo(agents, actor, workspace, a, proposed)
    ensures problem.Some? ==> problem.value == ParentCycle || problem.value == ParentNotFound
    ensures problem == Some(ParentCycle) ==> Returns(agents, actor, workspace, a, proposed)
    ensures problem == Some(ParentNotFound) ==> Strays(agents, actor, workspace, proposed)
  {
    var parent := proposed;
    var seen := {a};
    ghost var path := [];
    while parent.Some?
      invariant Climbs(agents, actor, workspace, proposed, path, parent)
      invariant seen == {a} + set x | x in path
      invariant a !in path
      decreases agents.Keys - seen, parent.Some?
    {
      var x := parent.value;
      if x in seen {
        if whole :| Ends(agents, actor, workspace, proposed, whole) {
          ReturnRefutes(agents, actor, workspace, a, proposed, path, x, whole);
          forall other | Ends(agents, actor, workspace, proposed, other) ensures other == whole {
            OneWayUp(agents, actor, workspace, proposed, other, whole);
          }
        }
        return Some(ParentCycle);
      }
      seen := seen + {x};
      if !Owned(agents, x, actor, workspace) {
        forall whole | Ends(agents, actor, workspace, proposed, whole) ensures false {
          ClimbIsPrefix(agents, actor, workspace, proposed, path, Some(x), whole);
        }
        return Some(ParentNotFound);
      }
      ghost var step := [x];
      assert Climbs(agents, actor, workspace, Some(x), step, agents[x].parent) by {
        assert step[1..] == [];
      }
      ClimbFurther(agents, actor, workspace, proposed, path, parent, step, agents[x].parent);
      path := path + step;
      parent := agents[x].parent;
    }
    return None;
  }

  // ---------- Saving keeps the forest ----------

  /** Changing one agent does not change a chain that does not come through it. */
  lemma {:induction false} ChainElsewhere(agents: Agents, a: AgentId, changed: Agent, actor: Actor, workspace: WorkspaceId,
                                          from: Option<AgentId>, path: seq<AgentId>, to: Option<AgentId>)
    requires Climbs(agents, actor, workspace, from, path, to) && a !in path
    ensures Climbs(agents[a := changed], actor, workspace, from, path, to)
    decreases |path|
  {
    if path != [] {
      ChainElsewhere(agents, a, changed, actor, workspace, agents[path[0]].parent, path[1..], to);
    }
  }

  /** An allowed parent never closes a cycle: every other chain still ends, rerouted where it came through the agent. */
  lemma SavingKeepsForest(agents: Agents, a: AgentId, saved: Agent)
    requires Forest(agents) && MayReportTo(agents, saved.actor, saved.workspace, a, saved.parent)
    requires a in agents ==> agents[a].actor == saved.actor && agents[a].workspace == saved.workspace
    ensures Forest(agents[a := saved])
  {
    var after := agents[a := saved];
    var up :| Ends(agents, saved.actor, saved.workspace, saved.parent, up) && a !in up;
    ChainElsewhere(agents, a, saved, saved.actor, saved.workspace, saved.parent, up, None);
    var own := [a] + up;
    assert own[1..] == up;
    assert Ends(after, saved.actor, saved.workspace, Some(a), own);
    forall b | b in after ensures exists path :: Ends(after, after[b].actor, after[b].workspace, Some(b), path) {
      if b != a {
        var path :| Ends(agents, agents[b].actor, agents[b].workspace, Some(b), path);
        var rerouted := Rerouted(agents, a, saved, agents[b].actor, agents[b].workspace, Some(b), path, own);
      }
    }
  }

  lemma Rerouted(agents: Agents, a: AgentId, saved: Agent, actor: Actor, workspace: WorkspaceId, from: Option<AgentId>,
                 path: seq<AgentId>, own: seq<AgentId>) returns (rerouted: seq<AgentId>)
    requires Ends(agents, actor, workspace, from, path)
    requires Ends(agents[a := saved], saved.actor, saved.workspace, Some(a), own)
    requires a in agents ==> agents[a].actor == saved.actor && agents[a].workspace == saved.workspace
    ensures Ends(agents[a := saved], actor, workspace, from, rerouted)
  {
    if a in path {
      var i := FirstAt(path, a);
      ClimbPart(agents, actor, workspace, from, path, None, i);
      ChainElsewhere(agents, a, saved, actor, workspace, from, path[..i], Some(a));
      ClimbFurther(agents[a := saved], actor, workspace, from, path[..i], Some(a), own, None);
      rerouted := path[..i] + own;
    } else {
      ChainElsewhere(agents, a, saved, actor, workspace, from, path, None);
      rerouted := path;
    }
  }

  lemma FirstAt(path: seq<AgentId>, a: AgentId) returns (i: nat)
    requires a in path
    ensures i < |path| && path[i] == a && a !in path[..i]
  {
    i := 0;
    while path[i] != a
      invariant i < |path| && a !in path[..i] && a in path[i..]
      decreases |path| - i
    {
      i := i + 1;
    }
  }

  /** Going up from p comes to a. */
  ghost predicate Below(agents: Agents, actor: Actor, workspace: WorkspaceId, p: AgentId, a: AgentId) {
    exists path :: Climbs(agents, actor, workspace, Some(p), path, Some(a))
  }

  /** In a forest a parent is refused exactly when it is the agent itself or one of its descendants. */
  lemma CycleMeansDescendant(agents: Agents, actor: Actor, workspace: WorkspaceId, a: AgentId, p: AgentId)
    requires Forest(agents) && Owned(agents, p, actor, workspace)
    ensures MayReportTo(agents, actor, workspace, a, Some(p)) <==> !Below(agents, actor, workspace, p, a)
  {
    var whole :| Ends(agents, agents[p].actor, agents[p].workspace, Some(p), whole);
    if a in whole {
      var i := FirstAt(whole, a);
      ClimbPart(agents, actor, workspace, Some(p), whole, None, i);
      assert Below(agents, actor, workspace, p, a);
      if MayReportTo(agents, actor, workspace, a, Some(p)) {
        var other :| Ends(agents, actor, workspace, Some(p), other) && a !in other;
        OneWayUp(agents, actor, workspace, Some(p), other, whole);
      }
    } else {
      assert MayReportTo(agents, actor, workspace, a, Some(p));
      if Below(agents, actor, workspace, p, a) {
        var path :| Climbs(agents, actor, workspace, Some(p), path, Some(a));
        ReturnRefutes(agents, actor, workspace, a, Some(p), path, a, whole);
      }
    }
  }

  // ---------- saveAgent ----------

  datatype AgentInput = AgentInput(id: Option<AgentId>, expectedRevision: nat, parent: Option<AgentId>, details: nat)
  datatype Reply = Done(id: AgentId) | Denied(why: Problem) | Died

  class AgentWorkspace {
    const workspace: WorkspaceId
    var agents: Agents
    // The revision files written for each agent; each is created once.
    var files: set<(AgentId, nat)>
    // Durable writes that still succeed; the process dies at the next one.
    var fuel: nat

    ghost predicate Valid()
      reads this
    {
      Forest(agents)
    }

    constructor (workspace: WorkspaceId, fuel: nat)
      ensures Valid() && agents == map[] && files == {}
      ensures this.fuel == fuel
    {
      this.workspace, this.fuel := workspace, fuel;
      agents, files := map[], {};
    }

    function Input(actor: Actor, body: AgentInput): Agent {
      Agent(actor, workspace, body.parent, body.expectedRevision + 1, body.details)
    }

    /** Saves an agent whose parent's chain is sound, so that the parents of all agents stay a forest. */
    method SaveAgent(actor: Actor, body: AgentInput, newId: AgentId, allowed: bool) returns (reply: Reply)
      requires Valid() && newId !in agents
      modifies this`agents, this`files, this`fuel
      ensures reply.Died? ==> fuel == 0
      ensures Valid()
      ensures var a := if body.id.Some? then body.id.value else newId;
              var saved := Agent(actor, workspace, body.parent, body.expectedRevision + 1, body.details);
              var mine := a in old(agents) && old(agents)[a].actor == actor && old(agents)[a].workspace == workspace;
              && (forall b :: b in agents.Keys + old(agents).Keys && b != a ==>
                    b in agents && b in old(agents) && agents[b] == old(agents)[b])
              && match reply
                 case Done(id) =>
                   && id == a && allowed && MayReportTo(old(agents), actor, workspace, a, body.parent)
                   && (body.id.Some? ==> mine)
                   && body.expectedRevision == (if body.id.Some? then old(agents)[a].revision else 0)
                   && (a, body.expectedRevision + 1) !in old(files)
                   && agents == old(agents)[a := saved] && files == old(files) + {(a, body.expectedRevision + 1)}
                 case Denied(AccessDenied) => !allowed && agents == old(agents) && files == old(files)
                 case Denied(NotFound) =>
                   && body.id.Some? && !mine
                   && agents == old(agents) && files == old(files)
                 case Denied(RevisionChanged) =>
                   && (body.id.Some? ==> mine)
                   && body.expectedRevision != (if body.id.Some? then old(agents)[a].revision else 0)
                   && agents == old(agents) && files == old(files)
                 case Denied(StorageFailure) =>
                   (a, body.expectedRevision + 1) in old(files) && agents == old(agents) && files == old(files)
                 case Denied(_) =>
                   && !MayReportTo(old(agents), actor, workspace, a, body.parent)
                   && agents == old(agents) && files == old(files)
                 case Died =>
                   && agents == old(agents) && (a, body.expectedRevision + 1) !in old(files)
                   && (files == old(files) || files == old(files) + {(a, body.expectedRevision + 1)})
    {
      hide Climbs;
      if !allowed { return Denied(AccessDenied); }
      if body.id.Some? && !Owned(agents, body.id.value, actor, workspace) { return Denied(NotFound); }
      var revision := if body.id.Some? then agents[body.id.value].revision else 0;
      if revision != body.expectedRevision { return Denied(RevisionChanged); }
      var a := if body.id.Some? then body.id.value else newId;
      var problem := Walk(agents, actor, workspace, a, body.parent);
      if problem.Some? { return Denied(problem.value); }
      if (a, revision + 1) in files { return Denied(StorageFailure); }
      if fuel == 0 { return Died; }
      fuel := fuel - 1;
      files := files + {(a, revision + 1)};
      if fuel == 0 { return Died; }
      fuel := fuel - 1;
      SavingKeepsForest(agents, a, Input(actor, body));
      agents := agents[a := Input(actor, body)];
      return Done(a);
    }
  }
}
