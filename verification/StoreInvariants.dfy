/** What every commit, revision and withdrawal keeps: linear version chains, an acyclic reasoning graph and a
    ledger from which the artifacts can be rebuilt. */
module StoreInvariants {
  import opened Options
  import opened Records
  import opened ArtifactStore

  // ---------------------------------------------------------------- version chains

  ghost predicate RowOk(arts: map<Id, Artifact>, id: Id)
    requires id in arts
  {
    var c := arts[id].content;
    && arts[id].id == id
    && c.version >= 1
    && (c.version == 1 <==> c.supersedes.None?)
    && (c.supersedes.Some? ==>
      && c.supersedes.value in arts
      && Follows(arts[c.supersedes.value], c) && arts[c.supersedes.value].status.SUPERSEDED?)
  }

  ghost predicate Succeeded(arts: map<Id, Artifact>, id: Id) {
    exists next | next in arts :: arts[next].content.supersedes == Some(id)
  }

  ghost predicate Chains(arts: map<Id, Artifact>) {
    && (forall id | id in arts :: RowOk(arts, id))
    && (forall x, y | x in arts && y in arts && SameSlot(arts[x], arts[y]) :: x == y)
    && (forall id | id in arts && arts[id].status.SUPERSEDED? :: Succeeded(arts, id))
  }

  ghost predicate HasVersion(arts: map<Id, Artifact>, logical: Id, v: nat) {
    exists id | id in arts :: arts[id].content.logicalId == logical && arts[id].content.version == v
  }

  /** No gaps: below a version of a logical artifact, every version from 1 exists. */
  lemma {:induction false} EarlierVersionExists(arts: map<Id, Artifact>, id: Id, v: nat)
    requires Chains(arts) && id in arts && 1 <= v <= arts[id].content.version
    ensures HasVersion(arts, arts[id].content.logicalId, v)
    decreases arts[id].content.version
  {
    assert RowOk(arts, id);
    if v < arts[id].content.version {
      EarlierVersionExists(arts, arts[id].content.supersedes.value, v);
    }
  }

  /** The latest version of a logical artifact that has one, among the rows named in `ids`. */
  lemma {:induction false} LatestAmong(arts: map<Id, Artifact>, ids: set<Id>, logical: Id) returns (top: Option<Id>)
    requires ids <= arts.Keys
    ensures top.None? ==> forall id | id in ids :: arts[id].content.logicalId != logical
    ensures top.Some? ==> top.value in ids && arts[top.value].content.logicalId == logical
    ensures top.Some? ==> forall id | id in ids && arts[id].content.logicalId == logical ::
              arts[id].content.version <= arts[top.value].content.version
  {
    if ids == {} { return None; }
    var x :| x in ids;
    var rest := LatestAmong(arts, ids - {x}, logical);
    if arts[x].content.logicalId != logical {
      top := rest;
    } else if rest.Some? && arts[x].content.version < arts[rest.value].content.version {
      top := rest;
    } else {
      top := Some(x);
    }
  }

  /** Only the head of a lineage has no successor, so it alone is not SUPERSEDED. */
  lemma SupersededBelowHead(arts: map<Id, Artifact>, top: Id, id: Id)
    requires Chains(arts) && top in arts && id in arts
    requires arts[id].content.logicalId == arts[top].content.logicalId
    requires forall x | x in arts && arts[x].content.logicalId == arts[top].content.logicalId ::
               arts[x].content.version <= arts[top].content.version
    ensures arts[id].status.SUPERSEDED? <==> arts[id].content.version < arts[top].content.version
  {
    assert RowOk(arts, id);
    if arts[id].status.SUPERSEDED? {
      var next :| next in arts && arts[next].content.supersedes == Some(id);
      assert RowOk(arts, next);
    } else if arts[id].content.version < arts[top].content.version {
      EarlierVersionExists(arts, top, arts[id].content.version + 1);
      var next :| next in arts && arts[next].content.logicalId == arts[top].content.logicalId
                  && arts[next].content.version == arts[id].content.version + 1;
      assert RowOk(arts, next);
      var p := arts[next].content.supersedes.value;
      assert SameSlot(arts[p], arts[id]);
    }
  }

  /** A logical artifact has exactly the versions 1..n, one row each; all below n are SUPERSEDED and n is not. */
  lemma LineageIsLinear(arts: map<Id, Artifact>, logical: Id) returns (n: nat)
    requires Chains(arts)
    ensures forall v: nat :: HasVersion(arts, logical, v) <==> 1 <= v <= n
    ensures forall id | id in arts && arts[id].content.logicalId == logical ::
              arts[id].status.SUPERSEDED? <==> arts[id].content.version < n
    ensures forall x, y | x in arts && y in arts && SameSlot(arts[x], arts[y]) :: x == y
  {
    var top := LatestAmong(arts, arts.Keys, logical);
    if top.None? { return 0; }
    n := arts[top.value].content.version;
    forall v: nat ensures HasVersion(arts, logical, v) <==> 1 <= v <= n {
      if HasVersion(arts, logical, v) {
        var id :| id in arts && arts[id].content.logicalId == logical && arts[id].content.version == v;
        assert RowOk(arts, id);
      }
      if 1 <= v <= n { EarlierVersionExists(arts, top.value, v); }
    }
    forall id | id in arts && arts[id].content.logicalId == logical
      ensures arts[id].status.SUPERSEDED? <==> arts[id].content.version < n
    {
      SupersededBelowHead(arts, top.value, id);
    }
  }

  lemma SucceededGrows(arts: map<Id, Artifact>, arts': map<Id, Artifact>, id: Id)
    requires Succeeded(arts, id)
    requires forall x | x in arts :: x in arts' && arts'[x].content == arts[x].content
    ensures Succeeded(arts', id)
  {
    var next :| next in arts && arts[next].content.supersedes == Some(id);
    assert next in arts' && arts'[next].content.supersedes == Some(id);
  }

  ghost predicate Unique(arts: map<Id, Artifact>) {
    forall x, y | x in arts && y in arts && SameSlot(arts[x], arts[y]) :: x == y
  }

  lemma RevisedUnique(arts: map<Id, Artifact>, r: map<Id, Artifact>, a: Artifact)
    requires Unique(arts) && a.id !in arts && forall id | id in arts :: !SameSlot(arts[id], a)
    requires r.Keys == arts.Keys + {a.id} && r[a.id] == a
    requires forall x | x in arts :: r[x].content == arts[x].content
    ensures Unique(r)
  {
    forall x, y | x in r && y in r && SameSlot(r[x], r[y]) ensures x == y {
      if x in arts && y in arts { assert SameSlot(arts[x], arts[y]); }
    }
  }

  lemma CommittedRowOk(arts: map<Id, Artifact>, a: Artifact, id: Id)
    requires Chains(arts) && a.id !in arts && a.content.version == 1 && a.content.supersedes.None?
    requires id in arts || id == a.id
    ensures RowOk(arts[a.id := a], id)
  {
    if id != a.id { assert RowOk(arts, id); }
  }

  lemma AddedRow(arts: map<Id, Artifact>, a: Artifact)
    requires Add(arts, a).Ok?
    ensures a.id !in arts && (forall id | id in arts :: !SameSlot(arts[id], a)) && Add(arts, a) == Ok(arts[a.id := a])
    ensures a.content.supersedes.None? <==> a.content.version == 1
  {
  }

  lemma ChainsAfterCommit(arts: map<Id, Artifact>, a: Artifact)
    requires Chains(arts) && Add(arts, a).Ok? && a.status.ACTIVE? && a.content.supersedes.None?
    ensures Chains(arts[a.id := a])
  {
    hide Add, SameSlot, Succeeded;
    AddedRow(arts, a);
    var arts' := arts[a.id := a];
    forall id | id in arts' ensures RowOk(arts', id) {
      CommittedRowOk(arts, a, id);
    }
    assert Unique(arts);
    RevisedUnique(arts, arts', a);
    forall id | id in arts' && arts'[id].status.SUPERSEDED? ensures Succeeded(arts', id) {
      SucceededGrows(arts, arts', id);
    }
  }

  lemma ChainsAfterLifecycle(arts: map<Id, Artifact>, p: Id, status: Status, at: int)
    requires Chains(arts) && p in arts && arts[p].status.ACTIVE?
    requires status.SUPERSEDED? ==> Succeeded(arts, p)
    ensures Chains(arts[p := arts[p].(status := status, updatedAt := at)])
  {
    var arts' := arts[p := arts[p].(status := status, updatedAt := at)];
    forall id | id in arts' ensures RowOk(arts', id) {
      assert RowOk(arts, id);
    }
    forall id | id in arts' && arts'[id].status.SUPERSEDED? ensures Succeeded(arts', id) {
      SucceededGrows(arts, arts', id);
    }
  }

  /** The rows after a revision: the new row, and the predecessor marked. */
  function Superseding(arts: map<Id, Artifact>, a: Artifact, at: int): (r: map<Id, Artifact>)
    requires a.content.supersedes.Some? && a.content.supersedes.value in arts
  {
    var p := a.content.supersedes.value;
    arts[a.id := a][p := arts[p].(status := SUPERSEDED, updatedAt := at)]
  }

  lemma SupersedingRows(arts: map<Id, Artifact>, a: Artifact, at: int)
    requires a.id !in arts && a.content.supersedes.Some? && a.content.supersedes.value in arts
    ensures var r := Superseding(arts, a, at);
            && r.Keys == arts.Keys + {a.id} && r[a.id] == a
            && (forall x | x in arts :: r[x].id == arts[x].id && r[x].content == arts[x].content
                 && r[x].status == if x == a.content.supersedes.value then SUPERSEDED else arts[x].status)
  {
  }

  lemma RevisedRowOk(arts: map<Id, Artifact>, r: map<Id, Artifact>, a: Artifact, id: Id)
    requires Chains(arts) && a.id !in arts && a.content.version > 1 && a.content.supersedes.Some?
    requires r.Keys == arts.Keys + {a.id} && r[a.id] == a && id in r
    requires var p := a.content.supersedes.value;
             && p in arts && arts[p].status.ACTIVE? && Follows(arts[p], a.content)
             && (forall x | x in arts :: r[x].id == arts[x].id && r[x].content == arts[x].content
                  && r[x].status == if x == p then SUPERSEDED else arts[x].status)
    ensures RowOk(r, id)
  {
    if id in arts { assert RowOk(arts, id); }
  }

  lemma SucceededBy(arts: map<Id, Artifact>, next: Id, id: Id)
    requires next in arts && arts[next].content.supersedes == Some(id)
    ensures Succeeded(arts, id)
  {
  }

  lemma RevisedPredecessor(arts: map<Id, Artifact>, a: Artifact)
    requires Add(arts, a).Ok? && a.content.supersedes.Some?
    ensures a.content.version > 1 && a.content.supersedes.value in arts
    ensures Follows(arts[a.content.supersedes.value], a.content)
  {
  }

  lemma ChainsAfterRevise(arts: map<Id, Artifact>, a: Artifact, at: int)
    requires Chains(arts) && Add(arts, a).Ok? && a.status.ACTIVE? && a.content.supersedes.Some?
    requires arts[a.content.supersedes.value].status.ACTIVE?
    ensures Chains(Superseding(arts, a, at))
  {
    hide Superseding, Add, SameSlot, Succeeded, RowOk;
    AddedRow(arts, a);
    RevisedPredecessor(arts, a);
    var p := a.content.supersedes.value;
    var r := Superseding(arts, a, at);
    SupersedingRows(arts, a, at);
    forall id | id in r ensures RowOk(r, id) {
      RevisedRowOk(arts, r, a, id);
    }
    assert Unique(arts);
    RevisedUnique(arts, r, a);
    forall id | id in r && r[id].status.SUPERSEDED? ensures Succeeded(r, id) {
      if id == p { SucceededBy(r, a.id, p); } else { SucceededGrows(arts, r, id); }
    }
  }

  // ---------------------------------------------------------------- the graph

  /** What the graph depends on: artifact contents, which never change. */
  ghost function Contents(arts: map<Id, Artifact>): map<Id, Content> {
    map id | id in arts :: arts[id].content
  }

  ghost predicate NodeOk(cs: map<Id, Content>, g: GraphRows, n: Id)
    requires n in g.nodes
  {
    var node := g.nodes[n];
    && node.id == n && node.order < |g.nodes|
    && node.ref in cs && node.ref in g.nodeFor && g.nodeFor[node.ref] == n
    && node.kind == cs[node.ref].kind && node.logicalId == cs[node.ref].logicalId
    && node.version == cs[node.ref].version
  }

  /** One node per artifact, agreeing with it, numbered in creation order. */
  ghost predicate Projected(cs: map<Id, Content>, g: GraphRows) {
    && g.nodeFor.Keys == cs.Keys
    && (forall id | id in g.nodeFor :: g.nodeFor[id] in g.nodes && g.nodes[g.nodeFor[id]].ref == id)
    && (forall n | n in g.nodes :: NodeOk(cs, g, n))
  }

  /** An edge joins existing nodes of permitted kinds, from the later-created to the earlier-created one, and a
      SUPERSEDES edge states a supersession link. */
  ghost predicate EdgeOk(cs: map<Id, Content>, nodes: map<Id, Node>, e: Edge) {
    && e.from in nodes && e.to in nodes
    && nodes[e.to].order < nodes[e.from].order
    && EndpointsAllowed(e.edgeType, nodes[e.from].kind, nodes[e.to].kind)
    && nodes[e.from].ref in cs
    && (e.edgeType.SUPERSEDES? ==> cs[nodes[e.from].ref].supersedes == Some(nodes[e.to].ref))
  }

  ghost predicate EdgesOk(cs: map<Id, Content>, g: GraphRows) {
    forall k | k in g.edges :: g.edges[k].id == k && EdgeOk(cs, g.nodes, g.edges[k])
  }

  ghost predicate HasSupersedesEdge(g: GraphRows, later: Id, earlier: Id) {
    && later in g.nodeFor && earlier in g.nodeFor
    && exists k | k in g.edges :: g.edges[k].edgeType.SUPERSEDES?
         && g.edges[k].from == g.nodeFor[later] && g.edges[k].to == g.nodeFor[earlier]
  }

  ghost predicate Mirrored(cs: map<Id, Content>, g: GraphRows) {
    forall id | id in cs && cs[id].supersedes.Some? :: HasSupersedesEdge(g, id, cs[id].supersedes.value)
  }

  ghost predicate Graph(cs: map<Id, Content>, g: GraphRows) {
    Projected(cs, g) && EdgesOk(cs, g) && Mirrored(cs, g)
  }

  /** A walk along edges, given by the edge ids. */
  ghost predicate Walk(g: GraphRows, path: seq<Id>) {
    && (forall i | 0 <= i < |path| :: path[i] in g.edges)
    && (forall i | 0 <= i < |path| - 1 :: g.edges[path[i]].to == g.edges[path[i + 1]].from)
  }

  lemma {:induction false} WalkDescends(cs: map<Id, Content>, g: GraphRows, path: seq<Id>)
    requires EdgesOk(cs, g) && Walk(g, path) && path != []
    ensures g.edges[path[0]].from in g.nodes && g.edges[path[|path| - 1]].to in g.nodes
    ensures g.nodes[g.edges[path[|path| - 1]].to].order < g.nodes[g.edges[path[0]].from].order
  {
    assert EdgeOk(cs, g.nodes, g.edges[path[0]]);
    if |path| > 1 {
      WalkDescends(cs, g, path[1..]);
    }
  }

  /** No walk of whatever length returns to where it started. */
  lemma GraphIsAcyclic(cs: map<Id, Content>, g: GraphRows, path: seq<Id>)
    requires EdgesOk(cs, g) && Walk(g, path) && path != []
    ensures g.edges[path[0]].from != g.edges[path[|path| - 1]].to
  {
    WalkDescends(cs, g, path);
  }

  /** SUPERSEDES edges are exactly the supersession links of the artifacts. */
  lemma SupersedesMirrorsChains(cs: map<Id, Content>, g: GraphRows, later: Id, earlier: Id)
    requires Graph(cs, g) && later in cs && earlier in cs
    ensures HasSupersedesEdge(g, later, earlier) <==> cs[later].supersedes == Some(earlier)
  {
    if HasSupersedesEdge(g, later, earlier) {
      var k :| k in g.edges && g.edges[k].edgeType.SUPERSEDES?
               && g.edges[k].from == g.nodeFor[later] && g.edges[k].to == g.nodeFor[earlier];
      assert EdgeOk(cs, g.nodes, g.edges[k]);
    }
  }

  lemma {:induction false} TargetsAreNodes(g: GraphRows, parents: seq<Relationship>, i: nat)
    requires Targets(g, parents).Ok? && i < |parents|
    requires forall n | n in g.nodes :: g.nodes[n].id == n
    ensures var ts := Targets(g, parents).value;
            |ts| == |parents| && ts[i] in g.nodes && !parents[i].edgeType.SUPERSEDES?
  {
    TargetsLength(g, parents);
    var n := |parents| - 1;
    if i < n {
      TargetsAreNodes(g, parents[..n], i);
    }
  }

  /** Rows are only added to the edge table. */
  ghost predicate EdgesGrow(g: GraphRows, g': GraphRows) {
    g'.nodes == g.nodes && g'.nodeFor == g.nodeFor
    && forall k | k in g.edges :: k in g'.edges && g'.edges[k] == g.edges[k]
  }

  lemma {:induction false} RelationshipsEffect(
    cs: map<Id, Content>, g: GraphRows, from: Id, parents: seq<Relationship>, edgeIds: seq<Id>, targets: seq<Id>,
    actor: Actor)
    requires |parents| == |edgeIds| == |targets|
    requires EdgesOk(cs, g) && from in g.nodes && g.nodes[from].ref in cs
    requires forall i | 0 <= i < |targets| ::
               && targets[i] in g.nodes && g.nodes[targets[i]].order < g.nodes[from].order
               && !parents[i].edgeType.SUPERSEDES?
    requires AddRelationships(g, from, parents, edgeIds, targets, actor).Ok?
    ensures var g' := AddRelationships(g, from, parents, edgeIds, targets, actor).value;
            EdgesGrow(g, g') && EdgesOk(cs, g')
  {
    if parents != [] {
      var n := |parents| - 1;
      RelationshipsEffect(cs, g, from, parents[..n], edgeIds[..n], targets[..n], actor);
    }
  }

  ghost predicate FreshNode(cs: map<Id, Content>, g: GraphRows, g': GraphRows, node: Id, id: Id, c: Content) {
    && id !in cs && id !in g.nodeFor && node !in g.nodes
    && g'.nodes == g.nodes[node := Node(node, id, c.kind, c.logicalId, c.version, |g.nodes|)]
    && g'.nodeFor == g.nodeFor[id := node] && g'.edges == g.edges
  }

  lemma NodeAddedOk(
    cs: map<Id, Content>, g: GraphRows, g': GraphRows, node: Id, id: Id, c: Content, n: Id)
    requires Projected(cs, g) && FreshNode(cs, g, g', node, id, c) && n in g'.nodes
    ensures NodeOk(cs[id := c], g', n)
  {
    assert |g'.nodes| == |g.nodes| + 1;
    if n != node { assert NodeOk(cs, g, n); }
  }

  lemma NodeAddedProjected(
    cs: map<Id, Content>, g: GraphRows, g': GraphRows, node: Id, id: Id, c: Content)
    requires Projected(cs, g) && FreshNode(cs, g, g', node, id, c)
    ensures Projected(cs[id := c], g')
  {
    hide NodeOk;
    forall n | n in g'.nodes ensures NodeOk(cs[id := c], g', n) {
      NodeAddedOk(cs, g, g', node, id, c, n);
    }
  }

  lemma NodeAddedEdges(cs: map<Id, Content>, g: GraphRows, g': GraphRows, node: Id, id: Id, c: Content)
    requires EdgesOk(cs, g) && FreshNode(cs, g, g', node, id, c)
    ensures EdgesOk(cs[id := c], g')
  {
    forall k | k in g'.edges ensures EdgeOk(cs[id := c], g'.nodes, g'.edges[k]) {
      assert EdgeOk(cs, g.nodes, g.edges[k]);
    }
  }

  lemma NodeAdded(cs: map<Id, Content>, g: GraphRows, node: Id, id: Id, c: Content, title: string)
    requires Projected(cs, g) && EdgesOk(cs, g) && id !in cs && AddNode(g, node, id, c, title).Ok?
    ensures var g' := AddNode(g, node, id, c, title).value;
            && Projected(cs[id := c], g') && EdgesOk(cs[id := c], g')
            && FreshNode(cs, g, g', node, id, c)
            && forall n | n in g.nodes :: n in g'.nodes && g'.nodes[n].order < g'.nodes[node].order
  {
    var g' := AddNode(g, node, id, c, title).value;
    NodeAddedProjected(cs, g, g', node, id, c);
    NodeAddedEdges(cs, g, g', node, id, c);
    forall n | n in g.nodes ensures n in g'.nodes && g'.nodes[n].order < g'.nodes[node].order {
      assert NodeOk(cs, g, n);
    }
  }

  lemma SupersedesEdgeKept(g: GraphRows, g': GraphRows, later: Id, earlier: Id)
    requires HasSupersedesEdge(g, later, earlier)
    requires forall x | x in g.nodeFor :: x in g'.nodeFor && g'.nodeFor[x] == g.nodeFor[x]
    requires forall k | k in g.edges :: k in g'.edges && g'.edges[k] == g.edges[k]
    ensures HasSupersedesEdge(g', later, earlier)
  {
    var k :| k in g.edges && g.edges[k].edgeType.SUPERSEDES?
             && g.edges[k].from == g.nodeFor[later] && g.edges[k].to == g.nodeFor[earlier];
    assert k in g'.edges;
  }

  /** Projecting an artifact: its node and its relationship edges. */
  function Project(g: GraphRows, w: Write): Result<GraphRows> {
    var a := w.artifact;
    var targets :- RelationshipTargets(g, a, w.relationshipEdges);
    var g1 :- AddNode(g, w.node, a.id, a.content, w.title);
    TargetsLength(g, a.content.parents);
    AddRelationships(g1, w.node, a.content.parents, w.relationshipEdges, targets, w.context.actor)
  }

  lemma ProjectedKept(cs: map<Id, Content>, g: GraphRows, g': GraphRows)
    requires Projected(cs, g) && g'.nodes == g.nodes && g'.nodeFor == g.nodeFor
    ensures Projected(cs, g')
  {
    forall n | n in g'.nodes ensures NodeOk(cs, g', n) { assert NodeOk(cs, g, n); }
  }

  lemma NodeIds(cs: map<Id, Content>, g: GraphRows)
    requires Projected(cs, g)
    ensures forall n | n in g.nodes :: g.nodes[n].id == n
  {
    forall n | n in g.nodes ensures g.nodes[n].id == n { assert NodeOk(cs, g, n); }
  }

  lemma ProjectEffect(cs: map<Id, Content>, g: GraphRows, w: Write)
    requires Projected(cs, g) && EdgesOk(cs, g) && w.artifact.id !in cs && Project(g, w).Ok?
    ensures var g' := Project(g, w).value;
            var cs' := cs[w.artifact.id := w.artifact.content];
            && Projected(cs', g') && EdgesOk(cs', g')
            && w.node !in g.nodes && w.artifact.id !in g.nodeFor
            && g'.nodeFor == g.nodeFor[w.artifact.id := w.node] && w.node in g'.nodes
            && (forall k | k in g.edges :: k in g'.edges && g'.edges[k] == g.edges[k])
            && (forall n | n in g.nodes :: n in g'.nodes && g'.nodes[n] == g.nodes[n]
                                           && g'.nodes[n].order < g'.nodes[w.node].order)
  {
    hide EdgesOk, AddNode, NodeOk;
    var a := w.artifact;
    var targets := RelationshipTargets(g, a, w.relationshipEdges).value;
    var g1 := AddNode(g, w.node, a.id, a.content, w.title).value;
    TargetsLength(g, a.content.parents);
    NodeAdded(cs, g, w.node, a.id, a.content, w.title);
    forall i | 0 <= i < |targets|
      ensures targets[i] in g1.nodes && g1.nodes[targets[i]].order < g1.nodes[w.node].order
              && !a.content.parents[i].edgeType.SUPERSEDES?
    {
      NodeIds(cs, g);
      TargetsAreNodes(g, a.content.parents, i);
    }
    RelationshipsEffect(cs[a.id := a.content], g1, w.node, a.content.parents, w.relationshipEdges, targets,
                        w.context.actor);
    var g' := Project(g, w).value;
    ProjectedKept(cs[a.id := a.content], g1, g');
  }

  lemma GraphAfterCommit(cs: map<Id, Content>, g: GraphRows, w: Write)
    requires Graph(cs, g) && w.artifact.id !in cs && w.artifact.content.supersedes.None? && Project(g, w).Ok?
    ensures Graph(cs[w.artifact.id := w.artifact.content], Project(g, w).value)
  {
    ProjectEffect(cs, g, w);
    var cs' := cs[w.artifact.id := w.artifact.content];
    forall id | id in cs' && cs'[id].supersedes.Some?
      ensures HasSupersedesEdge(Project(g, w).value, id, cs'[id].supersedes.value)
    {
      SupersedesEdgeKept(g, Project(g, w).value, id, cs[id].supersedes.value);
    }
  }

  lemma EdgeAdded(cs: map<Id, Content>, g: GraphRows, e: Edge)
    requires Projected(cs, g) && EdgesOk(cs, g) && EdgeOk(cs, g.nodes, e) && AddEdge(g, e).Ok?
    ensures var g' := AddEdge(g, e).value;
            Projected(cs, g') && EdgesOk(cs, g') && EdgesGrow(g, g') && e.id in g'.edges && g'.edges[e.id] == e
  {
    ProjectedKept(cs, g, AddEdge(g, e).value);
  }

  lemma LinkEdgeOk(cs: map<Id, Content>, g: GraphRows, e: Edge, later: Id, earlier: Id)
    requires Projected(cs, g) && later in cs && earlier in cs && cs[later].supersedes == Some(earlier)
    requires e.from == g.nodeFor[later] && e.to == g.nodeFor[earlier] && e.edgeType.SUPERSEDES?
    requires g.nodes[e.to].order < g.nodes[e.from].order && AddEdge(g, e).Ok?
    ensures EdgeOk(cs, g.nodes, e)
  {
    assert NodeOk(cs, g, e.from);
  }

  lemma GraphAfterRevise(cs: map<Id, Content>, g: GraphRows, w: Write, e: Edge)
    requires Graph(cs, g) && w.artifact.id !in cs && w.artifact.content.supersedes.Some?
    requires w.artifact.content.supersedes.value in cs && Project(g, w).Ok?
    requires e.from == w.node && e.to == g.nodeFor[w.artifact.content.supersedes.value] && e.edgeType.SUPERSEDES?
    requires AddEdge(Project(g, w).value, e).Ok?
    ensures Graph(cs[w.artifact.id := w.artifact.content], AddEdge(Project(g, w).value, e).value)
  {
    hide Project, AddEdge, EdgesOk, EdgeOk;
    ProjectEffect(cs, g, w);
    var a := w.artifact;
    var p := a.content.supersedes.value;
    var cs' := cs[a.id := a.content];
    var g1 := Project(g, w).value;
    LinkEdgeOk(cs', g1, e, a.id, p);
    EdgeAdded(cs', g1, e);
    var g' := AddEdge(g1, e).value;
    forall id | id in cs' && cs'[id].supersedes.Some? ensures HasSupersedesEdge(g', id, cs'[id].supersedes.value) {
      if id != a.id { SupersedesEdgeKept(g, g', id, cs[id].supersedes.value); }
    }
  }

  // ---------------------------------------------------------------- the ledger

  /** What the ledger can tell about an artifact. */
  datatype Summary = Summary(kind: Kind, logicalId: Id, version: nat, supersedes: Option<Id>, status: Status)

  ghost function SummaryOf(a: Artifact): Summary {
    Summary(a.content.kind, a.content.logicalId, a.content.version, a.content.supersedes, a.status)
  }

  ghost function Summaries(arts: map<Id, Artifact>): map<Id, Summary> {
    map id | id in arts :: SummaryOf(arts[id])
  }

  ghost function Mark(m: map<Id, Summary>, id: Id, status: Status): map<Id, Summary> {
    if id in m then m[id := m[id].(status := status)] else m
  }

  /** How one event changes the picture of the artifacts that the ledger gives. */
  ghost function ApplyEvent(m: map<Id, Summary>, b: Body): map<Id, Summary> {
    match b
    case ArtifactCommitted(a, k, l, v) => m[a := Summary(k, l, v, None, ACTIVE)]
    case ArtifactRevised(a, k, l, p, v, _) => Mark(m[a := Summary(k, l, v, Some(p), ACTIVE)], p, SUPERSEDED)
    case ArtifactWithdrawn(a, _, _, _, _, _) => Mark(m, a, WITHDRAWN)
    case _ => m
  }

  ghost function Rebuild(events: seq<Event>): map<Id, Summary> {
    if events == [] then map[] else ApplyEvent(Rebuild(events[..|events| - 1]), events[|events| - 1].body)
  }

  /** Whether an artifact event has had its effect on `m`, so that it cannot happen again. */
  ghost predicate Happened(m: map<Id, Summary>, b: Body) {
    match b
    case ArtifactCommitted(a, _, _, _) => a in m
    case ArtifactRevised(a, _, _, _, _, _) => a in m
    case ArtifactWithdrawn(a, _, _, _, _, _) => a in m && m[a].status.WITHDRAWN?
    case _ => true
  }

  ghost predicate Indexed(l: Ledger) {
    && (forall i | 0 <= i < |l.events| :: l.events[i].Id() in l.byId && l.byId[l.events[i].Id()] == l.events[i])
    && (forall id | id in l.byId :: l.byId[id].Id() == id && l.byId[id] in l.events)
    && (forall i, j | 0 <= i < j < |l.events| :: l.events[i].Id() != l.events[j].Id())
  }

  ghost predicate Recorded(m: map<Id, Summary>, l: Ledger) {
    && Indexed(l)
    && (forall id | id in l.byId :: Happened(m, l.byId[id].body))
    && Rebuild(l.events) == m
  }

  lemma IndexedAfterAppend(l: Ledger, e: Event)
    requires Indexed(l) && e.Id() !in l.byId
    ensures Indexed(Ledger(l.events + [e], l.byId[e.Id() := e]))
  {
    var l' := Ledger(l.events + [e], l.byId[e.Id() := e]);
    forall id | id in l'.byId ensures l'.byId[id].Id() == id && l'.byId[id] in l'.events {
      if id == e.Id() { assert l'.events[|l.events|] == e; }
      else { assert l.byId[id] in l.events; }
    }
  }

  /** The artifact events a service may write next, given what the store holds. */
  ghost predicate Enabled(m: map<Id, Summary>, b: Body) {
    match b
    case ArtifactCommitted(a, _, _, _) => a !in m
    case ArtifactRevised(a, _, _, p, _, _) => a !in m && p in m && m[p].status.ACTIVE?
    case ArtifactWithdrawn(a, _, _, _, _, _) => a in m && m[a].status.ACTIVE?
    case _ => false
  }

  lemma EnabledIsNew(m: map<Id, Summary>, l: Ledger, e: Event)
    requires Recorded(m, l) && Enabled(m, e.body) && Append(l, e).Ok?
    ensures e.Id() !in l.byId
  {
    if e.Id() in l.byId {
      assert false;
    }
  }

  /** Past events stay past, and an enabled event becomes one. */
  lemma HappenedKept(m: map<Id, Summary>, b: Body, past: Body)
    requires Enabled(m, b) && (Happened(m, past) || past == b)
    ensures Happened(ApplyEvent(m, b), past)
  {
  }

  lemma HappenedAfterAppend(m: map<Id, Summary>, l: Ledger, e: Event, byId: map<Id, Event>)
    requires Recorded(m, l) && Enabled(m, e.body) && byId == l.byId[e.Id() := e]
    ensures forall id | id in byId :: Happened(ApplyEvent(m, e.body), byId[id].body)
  {
    hide Happened, Enabled, ApplyEvent, Indexed, Rebuild;
    forall id | id in byId ensures Happened(ApplyEvent(m, e.body), byId[id].body) {
      HappenedKept(m, e.body, byId[id].body);
    }
  }

  /** An enabled artifact event is never mistaken for a stored one, so its append takes effect. */
  lemma AppendRecorded(m: map<Id, Summary>, l: Ledger, e: Event)
    requires Recorded(m, l) && Enabled(m, e.body) && Append(l, e).Ok?
    ensures e.Id() !in l.byId
    ensures Append(l, e).value == (Ledger(l.events + [e], l.byId[e.Id() := e]), e)
    ensures Recorded(ApplyEvent(m, e.body), Append(l, e).value.0)
  {
    hide Happened, Enabled, ApplyEvent, Indexed;
    EnabledIsNew(m, l, e);
    IndexedAfterAppend(l, e);
    HappenedAfterAppend(m, l, e, l.byId[e.Id() := e]);
    assert (l.events + [e])[..|l.events|] == l.events;
  }

  /** Events of the other services; only the artifact service writes the three artifact event types. */
  predicate OtherBody(b: Body) { b.TurnCompleted? || b.CritiqueResponded? || b.TurnTimedOut? || b.Foreign? }

  lemma OtherHappened(m: map<Id, Summary>, b: Body)
    requires OtherBody(b)
    ensures Happened(m, b)
  {
  }

  lemma OtherAppendRecorded(m: map<Id, Summary>, l: Ledger, e: Event)
    requires Recorded(m, l) && OtherBody(e.body) && Append(l, e).Ok?
    ensures Recorded(m, Append(l, e).value.0)
  {
    hide Indexed, Happened;
    if e.Id() !in l.byId {
      IndexedAfterAppend(l, e);
      assert (l.events + [e])[..|l.events|] == l.events;
      OtherHappened(m, e.body);
    }
  }

  // ---------------------------------------------------------------- preservation

  ghost predicate Inv(s: State) {
    Chains(s.artifacts) && Graph(Contents(s.artifacts), s.graph) && Recorded(Summaries(s.artifacts), s.ledger)
  }

  lemma EmptyInv()
    ensures Inv(EMPTY)
  {
  }

  lemma CommitIsComposed(s: State, w: Write)
    requires Commit(s, w).Ok?
    ensures var (s', r) := Commit(s, w).value;
            var a := w.artifact;
            && a.status.ACTIVE? && a.content.version == 1 && a.content.supersedes.None?
            && Add(s.artifacts, a) == Ok(s'.artifacts) && Project(s.graph, w) == Ok(s'.graph)
            && Append(s.ledger, ArtifactEvent(a, w.context, CommittedBody(a))) == Ok((s'.ledger, r.event))
            && r.artifact == a
  {
  }

  lemma SummariesAfterCommit(arts: map<Id, Artifact>, a: Artifact)
    requires a.id !in arts && a.status.ACTIVE? && a.content.supersedes.None?
    ensures Summaries(arts[a.id := a]) == ApplyEvent(Summaries(arts), CommittedBody(a))
  {
  }

  lemma ContentsAfterAdd(arts: map<Id, Artifact>, a: Artifact)
    ensures Contents(arts[a.id := a]) == Contents(arts)[a.id := a.content]
  {
  }

  lemma CommitKeepsInv(s: State, w: Write)
    requires Inv(s) && Commit(s, w).Ok?
    ensures Inv(Commit(s, w).value.0)
    ensures var (s', r) := Commit(s, w).value;
            && r == WriteResult(w.artifact, ArtifactEvent(w.artifact, w.context, CommittedBody(w.artifact)))
            && w.artifact.id !in s.artifacts && s'.artifacts == s.artifacts[w.artifact.id := w.artifact]
            && s'.ledger == Ledger(s.ledger.events + [r.event], s.ledger.byId[r.event.Id() := r.event])
            && r.event.Id() !in s.ledger.byId
  {
    CommitIsComposed(s, w);
    var a := w.artifact;
    ChainsAfterCommit(s.artifacts, a);
    ContentsAfterAdd(s.artifacts, a);
    GraphAfterCommit(Contents(s.artifacts), s.graph, w);
    SummariesAfterCommit(s.artifacts, a);
    AppendRecorded(Summaries(s.artifacts), s.ledger, ArtifactEvent(a, w.context, CommittedBody(a)));
  }

  lemma ReviseIsComposed(s: State, w: Write, edge: Id, reason: string)
    requires Revise(s, w, edge, reason).Ok?
    ensures var (s', r) := Revise(s, w, edge, reason).value;
            var a := w.artifact;
            && a.status.ACTIVE? && a.content.supersedes.Some?
            && var p := a.content.supersedes.value;
            && p in s.artifacts && s.artifacts[p].status.ACTIVE? && Follows(s.artifacts[p], a.content)
            && Add(s.artifacts, a).Ok? && s'.artifacts == Superseding(s.artifacts, a, w.context.recordedAt)
            && Project(s.graph, w).Ok? && NodeForArtifact(s.graph, p).Some?
            && AddEdge(Project(s.graph, w).value,
                       Edge(edge, w.node, NodeForArtifact(s.graph, p).value.id, SUPERSEDES, w.context.actor))
               == Ok(s'.graph)
            && Append(s.ledger, ArtifactEvent(a, w.context, RevisedBody(a, p, reason))) == Ok((s'.ledger, r.event))
            && r.artifact == a
  {
  }

  lemma SummariesAfterRevise(arts: map<Id, Artifact>, a: Artifact, at: int, reason: string)
    requires a.id !in arts && a.status.ACTIVE? && a.content.supersedes.Some? && a.content.supersedes.value in arts
    ensures var p := a.content.supersedes.value;
            Summaries(Superseding(arts, a, at)) == ApplyEvent(Summaries(arts), RevisedBody(a, p, reason))
  {
  }

  lemma ContentsAfterRevise(arts: map<Id, Artifact>, a: Artifact, at: int)
    requires a.id !in arts && a.content.supersedes.Some? && a.content.supersedes.value in arts
    ensures Contents(Superseding(arts, a, at)) == Contents(arts)[a.id := a.content]
  {
  }

  lemma ReviseKeepsInv(s: State, w: Write, edge: Id, reason: string)
    requires Inv(s) && Revise(s, w, edge, reason).Ok?
    ensures Inv(Revise(s, w, edge, reason).value.0)
    ensures var (s', r) := Revise(s, w, edge, reason).value;
            var a := w.artifact;
            && a.content.supersedes.Some? && a.content.supersedes.value in s.artifacts
            && s.artifacts[a.content.supersedes.value].status.ACTIVE?
            && r == WriteResult(a, ArtifactEvent(a, w.context, RevisedBody(a, a.content.supersedes.value, reason)))
            && a.id !in s.artifacts && s'.artifacts == Superseding(s.artifacts, a, w.context.recordedAt)
            && s'.ledger == Ledger(s.ledger.events + [r.event], s.ledger.byId[r.event.Id() := r.event])
            && r.event.Id() !in s.ledger.byId
  {
    ReviseIsComposed(s, w, edge, reason);
    var a := w.artifact;
    var p := a.content.supersedes.value;
    ChainsAfterRevise(s.artifacts, a, w.context.recordedAt);
    ContentsAfterRevise(s.artifacts, a, w.context.recordedAt);
    assert NodeForArtifact(s.graph, p).value.id == s.graph.nodeFor[p] by {
      assert NodeOk(Contents(s.artifacts), s.graph, s.graph.nodeFor[p]);
    }
    GraphAfterRevise(Contents(s.artifacts), s.graph, w,
                     Edge(edge, w.node, s.graph.nodeFor[p], SUPERSEDES, w.context.actor));
    SummariesAfterRevise(s.artifacts, a, w.context.recordedAt, reason);
    AppendRecorded(Summaries(s.artifacts), s.ledger, ArtifactEvent(a, w.context, RevisedBody(a, p, reason)));
  }

  lemma WithdrawIsComposed(s: State, id: Id, reason: string, warrants: seq<Id>, context: EventContext)
    requires Withdraw(s, id, reason, warrants, context).Ok?
    ensures var (s', r) := Withdraw(s, id, reason, warrants, context).value;
            && id in s.artifacts && s.artifacts[id].status.ACTIVE?
            && r.artifact == s.artifacts[id].(status := WITHDRAWN, updatedAt := context.recordedAt)
            && s'.artifacts == s.artifacts[id := r.artifact] && s'.graph == s.graph
            && Append(s.ledger, ArtifactEvent(r.artifact, context, WithdrawnBody(s.artifacts[id], reason, warrants)))
               == Ok((s'.ledger, r.event))
  {
  }

  lemma AfterWithdraw(arts: map<Id, Artifact>, id: Id, at: int, b: Body)
    requires Chains(arts) && id in arts && b.ArtifactWithdrawn? && b.artifact == id
    ensures var arts' := arts[id := arts[id].(status := WITHDRAWN, updatedAt := at)];
            Contents(arts') == Contents(arts) && Summaries(arts') == ApplyEvent(Summaries(arts), b)
  {
  }

  lemma WithdrawKeepsInv(s: State, id: Id, reason: string, warrants: seq<Id>, context: EventContext)
    requires Inv(s) && Withdraw(s, id, reason, warrants, context).Ok?
    ensures Inv(Withdraw(s, id, reason, warrants, context).value.0)
    ensures var (s', r) := Withdraw(s, id, reason, warrants, context).value;
            && id in s.artifacts && s.artifacts[id].status.ACTIVE?
            && s'.artifacts == s.artifacts[id := r.artifact] && s'.graph == s.graph
            && r.artifact == s.artifacts[id].(status := WITHDRAWN, updatedAt := context.recordedAt)
            && r.event.body == WithdrawnBody(s.artifacts[id], reason, warrants)
            && s'.ledger == Ledger(s.ledger.events + [r.event], s.ledger.byId[r.event.Id() := r.event])
            && r.event.Id() !in s.ledger.byId
  {
    WithdrawIsComposed(s, id, reason, warrants, context);
    var (s', r) := Withdraw(s, id, reason, warrants, context).value;
    assert RowOk(s.artifacts, id);
    ChainsAfterLifecycle(s.artifacts, id, WITHDRAWN, context.recordedAt);
    var b := WithdrawnBody(s.artifacts[id], reason, warrants);
    AfterWithdraw(s.artifacts, id, context.recordedAt, b);
    AppendRecorded(Summaries(s.artifacts), s.ledger, ArtifactEvent(r.artifact, context, b));
  }

  lemma AppendKeepsInv(s: State, e: Event)
    requires Inv(s) && OtherBody(e.body) && Append(s.ledger, e).Ok?
    ensures Inv(s.(ledger := Append(s.ledger, e).value.0))
  {
    OtherAppendRecorded(Summaries(s.artifacts), s.ledger, e);
  }
}
