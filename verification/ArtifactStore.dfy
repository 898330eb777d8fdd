/** The append-only artifact store of one session: artifacts, the reasoning graph and the event ledger, with the
    constraints that the database schema puts on them, and the service that writes the three together. */
module ArtifactStore {
  import opened Options
  import opened Records

  /** The graph rows; `nodeFor` is the unique index of the nodes by the artifact they project. */
  datatype GraphRows = GraphRows(nodes: map<Id, Node>, nodeFor: map<Id, Id>, edges: map<Id, Edge>)

  /** The events in append order; `byId` is their primary-key index. */
  datatype Ledger = Ledger(events: seq<Event>, byId: map<Id, Event>)

  /** The rows of one session. */
  datatype State = State(artifacts: map<Id, Artifact>, graph: GraphRows, ledger: Ledger)

  const EMPTY := State(map[], GraphRows(map[], map[], map[]), Ledger([], map[]))

  predicate IsSpace(c: char) { c in " \t\n\r" || c as int == 11 || c as int == 12 }
  predicate Blank(s: string) { forall i | 0 <= i < |s| :: IsSpace(s[i]) }

  /** Which kinds of artifact an edge type may join. */
  predicate EndpointsAllowed(t: EdgeType, from: Kind, to: Kind) {
    match t
    case SUPPORTS | OPPOSES => (from.Evidence? || from.Claim?) && to.Claim?
    case CONTRADICTS => from.Claim? && to.Claim?
    case DERIVED_FROM => from.Claim? && (to.Claim? || to.Assumption? || to.Fact?)
    case BASED_ON_ASSUMPTION => (from.Claim? || from.Alternative?) && to.Assumption?
    case FORMALIZES => from.Proposition? && to.Claim?
    case QUANTIFIES => from.Uncertainty?
    case IMPACTS => from.Alternative? && to.Objective?
    case CONSTRAINS => from.Constraint? && (to.Alternative? || to.Objective?)
    case VIOLATES | SATISFIES | INFEASIBLE_UNKNOWN => from.Alternative? && to.Constraint?
    case ATTACKS => from.Critique?
    case RESPONDS_TO => to.Critique?
    case SUPERSEDES => from == to
    case ADVOCATES => from.Position? && to.Alternative?
  }

  // ---------------------------------------------------------------- the ports

  /** Inserts an artifact row under the primary key, the unique (logical id, version) key and the revision trigger. */
  function Add(arts: map<Id, Artifact>, a: Artifact): Result<map<Id, Artifact>> {
    var c := a.content;
    :- Need(a.id !in arts, DuplicateKey);
    :- Need(forall id | id in arts :: !SameSlot(arts[id], a), DuplicateKey);
    :- Need((c.version == 1 && c.supersedes.None?) || (c.version > 1 && c.supersedes.Some?), BrokenChain);
    :- Need(c.supersedes.Some? ==> c.supersedes.value in arts && Follows(arts[c.supersedes.value], c), BrokenChain);
    Ok(arts[a.id := a])
  }

  predicate SameSlot(a: Artifact, b: Artifact) {
    a.content.logicalId == b.content.logicalId && a.content.version == b.content.version
  }

  predicate Follows(previous: Artifact, c: Content) {
    && previous.content.logicalId == c.logicalId && previous.content.kind == c.kind
    && previous.content.version + 1 == c.version
  }

  /** Changes the lifecycle columns only: ACTIVE may become SUPERSEDED or WITHDRAWN, and time may not run backwards. */
  function SetLifecycle(arts: map<Id, Artifact>, id: Id, status: Status, at: int): Result<map<Id, Artifact>> {
    if id !in arts then Err(NoArtifact) else
    :- Need(status == arts[id].status || arts[id].status.ACTIVE?, IllegalLifecycle);
    :- Need(arts[id].updatedAt <= at, IllegalLifecycle);
    Ok(arts[id := arts[id].(status := status, updatedAt := at)])
  }

  function NodeForArtifact(g: GraphRows, id: Id): Option<Node> {
    if id in g.nodeFor && g.nodeFor[id] in g.nodes then Some(g.nodes[g.nodeFor[id]]) else None
  }

  function AddNode(g: GraphRows, id: Id, artifact: Id, c: Content, title: string): Result<GraphRows> {
    if Blank(title) then Err(BlankText) else
    :- Need(id !in g.nodes && artifact !in g.nodeFor, DuplicateKey);
    var node := Node(id, artifact, c.kind, c.logicalId, c.version, |g.nodes|);
    Ok(g.(nodes := g.nodes[id := node], nodeFor := g.nodeFor[artifact := id]))
  }

  function AddEdge(g: GraphRows, e: Edge): Result<GraphRows> {
    if e.from == e.to then Err(IllegalEdge) else
    :- Need(e.id !in g.edges, DuplicateKey);
    :- Need(forall k | k in g.edges ::
              g.edges[k].from != e.from || g.edges[k].to != e.to || g.edges[k].edgeType != e.edgeType,
            DuplicateKey);
    :- Need(e.from in g.nodes && e.to in g.nodes, IllegalEdge);
    :- Need(EndpointsAllowed(e.edgeType, g.nodes[e.from].kind, g.nodes[e.to].kind), IllegalEdge);
    Ok(g.(edges := g.edges[e.id := e]))
  }

  /** Whether two events agree on everything the caller supplies except the time. */
  predicate SameAppend(e: Event, f: Event) {
    e.(context := e.context.(recordedAt := 0)) == f.(context := f.context.(recordedAt := 0))
  }

  /** Appends once per event id: repeating an append returns the stored event, a different one is refused. */
  function Append(l: Ledger, e: Event): Result<(Ledger, Event)> {
    if e.Id() in l.byId then
      if SameAppend(e, l.byId[e.Id()]) then Ok((l, l.byId[e.Id()])) else Err(LedgerConflict)
    else
      Ok((Ledger(l.events + [e], l.byId[e.Id() := e]), e))
  }

  // ---------------------------------------------------------------- the service

  datatype WriteResult = WriteResult(artifact: Artifact, event: Event)

  function ArtifactEvent(a: Artifact, context: EventContext, body: Body): Event {
    Event(context, a.content.round, body, a.content.metadata.attribution, a.content.metadata.evidence)
  }

  /** The graph nodes of the first `n` parent relationships, looked up before anything is written. */
  function Targets(g: GraphRows, parents: seq<Relationship>): Result<seq<Id>> {
    if parents == [] then Ok([])
    else
      var last := parents[|parents| - 1];
      var rest :- Targets(g, parents[..|parents| - 1]);
      :- Need(!last.edgeType.SUPERSEDES?, SupersedesIsDerived);
      var node := NodeForArtifact(g, last.target);
      :- Need(node.Some?, NoProjection);
      Ok(rest + [node.value.id])
  }

  function RelationshipTargets(g: GraphRows, a: Artifact, edgeIds: seq<Id>): Result<seq<Id>> {
    if |edgeIds| != |a.content.parents| then Err(EdgeIdsMismatch) else
    Targets(g, a.content.parents)
  }

  function AddRelationships(
    g: GraphRows, from: Id, parents: seq<Relationship>, edgeIds: seq<Id>, targets: seq<Id>, actor: Actor)
    : Result<GraphRows>
    requires |parents| == |edgeIds| == |targets|
  {
    if parents == [] then Ok(g)
    else
      var n := |parents| - 1;
      var g1 :- AddRelationships(g, from, parents[..n], edgeIds[..n], targets[..n], actor);
      AddEdge(g1, Edge(edgeIds[n], from, targets[n], parents[n].edgeType, actor))
  }

  datatype Write = Write(artifact: Artifact, node: Id, relationshipEdges: seq<Id>, title: string, context: EventContext)

  function CommittedBody(a: Artifact): Body {
    ArtifactCommitted(a.id, a.content.kind, a.content.logicalId, a.content.version)
  }

  function Commit(s: State, w: Write): Result<(State, WriteResult)> {
    var a := w.artifact;
    :- Need(a.content.version == 1 && a.content.supersedes.None?, NotInitial);
    :- Need(a.status.ACTIVE?, NotActive);
    var targets :- RelationshipTargets(s.graph, a, w.relationshipEdges);
    var arts :- Add(s.artifacts, a);
    var g1 :- AddNode(s.graph, w.node, a.id, a.content, w.title);
    TargetsLength(s.graph, a.content.parents);
    var g2 :- AddRelationships(g1, w.node, a.content.parents, w.relationshipEdges, targets, w.context.actor);
    var (ledger, event) :- Append(s.ledger, ArtifactEvent(a, w.context, CommittedBody(a)));
    Ok((State(arts, g2, ledger), WriteResult(a, event)))
  }

  function RevisedBody(a: Artifact, previous: Id, reason: string): Body {
    ArtifactRevised(a.id, a.content.kind, a.content.logicalId, previous, a.content.version, reason)
  }

  function Revise(s: State, w: Write, supersedesEdge: Id, reason: string): Result<(State, WriteResult)> {
    var a := w.artifact;
    :- Need(a.content.supersedes.Some? && a.content.version > 1, NotARevision);
    :- Need(a.status.ACTIVE?, NotActive);
    :- Need(!Blank(reason), BlankText);
    var p := a.content.supersedes.value;
    :- Need(p in s.artifacts, NoPredecessor);
    :- Need(s.artifacts[p].status.ACTIVE?, NotActive);
    :- Need(Follows(s.artifacts[p], a.content), NotSameLineage);
    var previousNode := NodeForArtifact(s.graph, p);
    :- Need(previousNode.Some?, NoProjection);
    var targets :- RelationshipTargets(s.graph, a, w.relationshipEdges);
    var arts1 :- Add(s.artifacts, a);
    var arts2 :- SetLifecycle(arts1, p, SUPERSEDED, w.context.recordedAt);
    var g1 :- AddNode(s.graph, w.node, a.id, a.content, w.title);
    TargetsLength(s.graph, a.content.parents);
    var g2 :- AddRelationships(g1, w.node, a.content.parents, w.relationshipEdges, targets, w.context.actor);
    var g3 :- AddEdge(g2, Edge(supersedesEdge, w.node, previousNode.value.id, SUPERSEDES, w.context.actor));
    var (ledger, event) :- Append(s.ledger, ArtifactEvent(a, w.context, RevisedBody(a, p, reason)));
    Ok((State(arts2, g3, ledger), WriteResult(a, event)))
  }

  function WithdrawnBody(a: Artifact, reason: string, warrants: seq<Id>): Body {
    ArtifactWithdrawn(a.id, a.content.kind, a.content.logicalId, a.content.version, reason, warrants)
  }

  function Withdraw(s: State, id: Id, reason: string, warrants: seq<Id>, context: EventContext)
    : Result<(State, WriteResult)>
  {
    if Blank(reason) then Err(BlankText) else
    :- Need(warrants != [], WarrantsInvalid);
    :- Need(forall i, j | 0 <= i < j < |warrants| :: warrants[i] != warrants[j], WarrantsInvalid);
    :- Need(forall i | 0 <= i < |warrants| :: NodeForArtifact(s.graph, warrants[i]).Some?, NoProjection);
    :- Need(id in s.artifacts, NoArtifact);
    var a := s.artifacts[id];
    :- Need(a.status.ACTIVE?, NotActive);
    var arts :- SetLifecycle(s.artifacts, id, WITHDRAWN, context.recordedAt);
    var withdrawn := a.(status := WITHDRAWN, updatedAt := context.recordedAt);
    var (ledger, event) :- Append(s.ledger, ArtifactEvent(withdrawn, context, WithdrawnBody(a, reason, warrants)));
    Ok((State(arts, s.graph, ledger), WriteResult(withdrawn, event)))
  }

  lemma TargetsLength(g: GraphRows, parents: seq<Relationship>)
    ensures Targets(g, parents).Ok? ==> |Targets(g, parents).value| == |parents|
  {
  }
}
