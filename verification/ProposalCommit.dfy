/** Committing what an agent turn proposed: all writes take identities derived from the turn, so that a retry finds
    them again. */
module ProposalCommit {
  import opened Options
  import opened Records
  import opened ArtifactStore
  import opened StoreInvariants
  import opened ArtifactService

  /** A turn's context and result; `requests` is 0 when the bundle asks for neither evidence nor simulation. */
  datatype TurnCommit = TurnCommit(
    context: Context, proposals: seq<Proposal>, requests: nat, limits: nat, execution: nat, committedAt: int)

  datatype Assignment = Assignment(
    agent: Id, agentVersion: nat, turn: Id, correlation: Id, causation: Id, round: nat, targets: seq<Id>)

  // ---------------------------------------------------------------- guards

  predicate PayloadFits(p: Proposal) { p.kind.Critique? <==> p.payload.CritiquePayload? }

  predicate CriticBundleOk(c: TurnCommit, targets: seq<Id>) {
    && c.requests == 0
    && (forall i | 0 <= i < |c.proposals| ::
          var p := c.proposals[i];
          && p.payload.CritiquePayload? && p.evidence.None? && p.confidence.NoConfidence?
          && p.payload.resolution.OPEN? && p.payload.target in targets)
    && (forall i, j | 0 <= i < j < |c.proposals| :: c.proposals[i].payload != c.proposals[j].payload)
  }

  function VisibleIds(visible: seq<Snapshot>): seq<Id> {
    seq(|visible|, i requires 0 <= i < |visible| => visible[i].id)
  }

  predicate AssignmentMatches(c: Context, a: Assignment) {
    && c.agent == a.agent && c.agentVersion == a.agentVersion && c.turn == a.turn && c.correlation == a.correlation
    && c.causation == a.causation && c.round == a.round && VisibleIds(c.visible) == a.targets
  }

  predicate CritiqueContract(c: TurnCommit, assignment: Option<Assignment>) {
    var critiques := exists i | 0 <= i < |c.proposals| :: c.proposals[i].kind.Critique?;
    if !critiques && !c.context.roleKind.Critic? && !c.context.phase.CritiquePhase? then
      assignment.None?
    else
      && !c.context.roleKind.OtherRole? && c.context.phase.CritiquePhase?
      && assignment.Some?
      && AssignmentMatches(c.context, assignment.value)
      && CriticBundleOk(c, assignment.value.targets)
  }

  function References(p: Proposal): seq<Reference> {
    (match p.payload
     case CritiquePayload(target, _, _) => [Reference(target, {})]
     case OtherPayload(references, _) => references)
    + BasisReferences(p.confidence)
  }

  function BasisReferences(c: Confidence): seq<Reference> {
    match c
    case NoConfidence => []
    case Confidence(basis, _) => seq(|basis|, i requires 0 <= i < |basis| => Reference(basis[i], {}))
  }

  function AllReferences(ps: seq<Proposal>): seq<Reference> {
    if ps == [] then [] else AllReferences(ps[..|ps| - 1]) + References(ps[|ps| - 1])
  }

  /** The kinds that all references to one artifact allow together; none means any kind. */
  function RequiredKinds(refs: seq<Reference>, id: Id): set<Kind> {
    set r, k | r in refs && r.target == id && k in r.kinds :: k
  }

  /** The first snapshot of an artifact in the context of a turn. */
  function SnapshotContent(visible: seq<Snapshot>, id: Id): Option<Content> {
    if visible == [] then None
    else if visible[0].id == id then Some(visible[0].content)
    else SnapshotContent(visible[1..], id)
  }

  /** A reference is authorized, current and exactly what the turn was shown. */
  predicate ReferenceOk(arts: map<Id, Artifact>, c: Context, refs: seq<Reference>, id: Id) {
    && id in arts && arts[id].status.ACTIVE? && arts[id].content.round <= c.round
    && SnapshotContent(c.visible, id) == Some(arts[id].content)
    && (RequiredKinds(refs, id) == {} || arts[id].content.kind in RequiredKinds(refs, id))
  }

  function Preflight(arts: map<Id, Artifact>, c: Context, refs: seq<Reference>): Check {
    if exists i | 0 <= i < |refs| :: SnapshotContent(c.visible, refs[i].target).None? then Refuse(Unauthorized)
    else if exists i | 0 <= i < |refs| :: !ReferenceOk(arts, c, refs, refs[i].target) then Refuse(ReferenceInvalid)
    else Pass
  }

  // ---------------------------------------------------------------- what a command writes

  function TurnAttribution(c: TurnCommit): Attribution {
    Attribution(c.context, Bundle(c.proposals, c.requests, c.limits), c.execution, c.committedAt)
  }

  function ArtifactId(c: TurnCommit, i: nat): Id { OfTurn(c.context.turn, i, ArtifactRole, 0) }
  function NodeId(c: TurnCommit, i: nat): Id { OfTurn(c.context.turn, i, NodeRole, 0) }
  function EventId(c: TurnCommit, i: nat): Id { OfTurn(c.context.turn, i, EventRole, 0) }
  function CompletionId(c: TurnCommit): Id { OfTurn(c.context.turn, 0, TurnEventRole, 0) }
  function EdgeId(c: TurnCommit, i: nat, ordinal: nat): Id { OfTurn(c.context.turn, i, RelationshipEdgeRole, ordinal) }

  function Attacks(p: Payload): seq<Relationship> {
    if p.CritiquePayload? then [Relationship(ATTACKS, p.target)] else []
  }

  function PreparedContent(c: TurnCommit, i: nat): Content
    requires i < |c.proposals|
  {
    var p := c.proposals[i];
    Content(ArtifactId(c, i), p.kind, 1, None, Actor(AGENT, c.context.agent), c.context.round, p.payload,
            Attacks(p.payload), p.confidence, Metadata(Some(TurnAttribution(c)), p.evidence, None, 0), c.execution)
  }

  function Prepared(c: TurnCommit, i: nat): Artifact
    requires i < |c.proposals|
  {
    Artifact(ArtifactId(c, i), PreparedContent(c, i), ACTIVE, c.committedAt)
  }

  function TurnContext(c: TurnCommit, event: Id): EventContext {
    EventContext(event, c.context.correlation, Some(c.context.causation), Actor(AGENT, c.context.agent), c.committedAt)
  }

  const TITLE := "Artifact"

  function TurnWrite(c: TurnCommit, i: nat): Write
    requires i < |c.proposals|
  {
    var parents := Attacks(c.proposals[i].payload);
    Write(Prepared(c, i), NodeId(c, i), seq(|parents|, k requires 0 <= k < |parents| => EdgeId(c, i, k)), TITLE,
          TurnContext(c, EventId(c, i)))
  }

  function TurnEvent(c: TurnCommit, i: nat): Event
    requires i < |c.proposals|
  {
    ArtifactEvent(Prepared(c, i), TurnContext(c, EventId(c, i)), CommittedBody(Prepared(c, i)))
  }

  function CompletionEvent(c: TurnCommit): Event {
    var ids := seq(|c.proposals|, i requires 0 <= i < |c.proposals| => ArtifactId(c, i));
    Event(TurnContext(c, CompletionId(c)), c.context.round, TurnCompleted(c.context.turn, ids),
          Some(TurnAttribution(c)), None)
  }

  // ---------------------------------------------------------------- the command

  predicate AnyPrior(s: State, c: TurnCommit) {
    || CompletionId(c) in s.ledger.byId
    || exists i | 0 <= i < |c.proposals| ::
         ArtifactId(c, i) in s.artifacts || NodeForArtifact(s.graph, ArtifactId(c, i)).Some?
         || EventId(c, i) in s.ledger.byId
  }

  predicate EventMatches(e: Event, c: TurnCommit, i: nat)
    requires i < |c.proposals|
  {
    var a := Prepared(c, i);
    && e.body == CommittedBody(a)
    && e.context.causation == Some(c.context.causation) && e.context.correlation == c.context.correlation
    && e.context.actor == Actor(AGENT, c.context.agent) && e.round == c.context.round
    && e.context.recordedAt == c.committedAt
    && e.attribution == a.content.metadata.attribution && e.evidence == a.content.metadata.evidence
  }

  /** The stored rows of one proposal, when they are all there and are what the command would write. */
  function PriorWrite(s: State, c: TurnCommit, i: nat): Result<WriteResult>
    requires i < |c.proposals|
  {
    var id := ArtifactId(c, i);
    :- Need(id in s.artifacts && s.artifacts[id].content == PreparedContent(c, i), PriorCommitConflict);
    var node := NodeForArtifact(s.graph, id);
    :- Need(node.Some? && node.value.id == NodeId(c, i), PriorCommitConflict);
    :- Need(EventId(c, i) in s.ledger.byId && EventMatches(s.ledger.byId[EventId(c, i)], c, i), PriorCommitConflict);
    Ok(WriteResult(s.artifacts[id], s.ledger.byId[EventId(c, i)]))
  }

  function PriorWrites(s: State, c: TurnCommit, n: nat): Result<seq<WriteResult>>
    requires n <= |c.proposals|
  {
    if n == 0 then Ok([])
    else
      var rest :- PriorWrites(s, c, n - 1);
      var last :- PriorWrite(s, c, n - 1);
      Ok(rest + [last])
  }

  function IdempotentResult(s: State, c: TurnCommit): Result<seq<WriteResult>> {
    if exists i | 0 <= i < |c.proposals| :: ArtifactId(c, i) !in s.artifacts then Err(PriorCommitConflict) else
    var writes :- PriorWrites(s, c, |c.proposals|);
    :- Need(CompletionId(c) in s.ledger.byId && s.ledger.byId[CompletionId(c)] == CompletionEvent(c),
            PriorCommitConflict);
    Ok(writes)
  }

  function WriteFirst(s: State, c: TurnCommit, n: nat): Result<(State, seq<WriteResult>)>
    requires n <= |c.proposals|
  {
    if n == 0 then Ok((s, []))
    else
      var (s1, writes) :- WriteFirst(s, c, n - 1);
      var (s2, write) :- Commit(s1, TurnWrite(c, n - 1));
      Ok((s2, writes + [write]))
  }

  function WriteTurn(s: State, c: TurnCommit): Result<(State, seq<WriteResult>)> {
    var refs := AllReferences(c.proposals);
    :- Preflight(s.artifacts, c.context, refs);
    var (s1, writes) :- WriteFirst(s, c, |c.proposals|);
    var (ledger, _) :- Append(s1.ledger, CompletionEvent(c));
    Ok((s1.(ledger := ledger), writes))
  }

  function CommitTurn(s: State, c: TurnCommit, assignment: Option<Assignment>): Result<(State, seq<WriteResult>)> {
    if exists i | 0 <= i < |c.proposals| :: !PayloadFits(c.proposals[i]) then Err(BadPayload) else
    :- Need(CritiqueContract(c, assignment), BadAssignment);
    if AnyPrior(s, c) then
      var writes :- IdempotentResult(s, c);
      Ok((s, writes))
    else
      WriteTurn(s, c)
  }

  // ---------------------------------------------------------------- replay

  /** Everything one proposal of a command writes is in the store. */
  ghost predicate ProposalStored(s: State, c: TurnCommit, i: nat)
    requires i < |c.proposals|
  {
    && ArtifactId(c, i) in s.artifacts && s.artifacts[ArtifactId(c, i)].id == ArtifactId(c, i)
    && s.artifacts[ArtifactId(c, i)].content == PreparedContent(c, i)
    && ArtifactId(c, i) in s.graph.nodeFor && s.graph.nodeFor[ArtifactId(c, i)] == NodeId(c, i)
    && NodeId(c, i) in s.graph.nodes && s.graph.nodes[NodeId(c, i)].id == NodeId(c, i)
    && EventId(c, i) in s.ledger.byId && s.ledger.byId[EventId(c, i)] == TurnEvent(c, i)
    && forall k | 0 <= k < |Attacks(c.proposals[i].payload)| :: EdgeId(c, i, k) in s.graph.edges
  }

  /** Everything the command writes is in the store. */
  ghost predicate TurnStored(s: State, c: TurnCommit) {
    && (forall i | 0 <= i < |c.proposals| :: ProposalStored(s, c, i))
    && CompletionId(c) in s.ledger.byId && s.ledger.byId[CompletionId(c)] == CompletionEvent(c)
  }

  lemma StoredGrows(s: State, s': State, c: TurnCommit)
    requires TurnStored(s, c) && Grows(s, s')
    ensures TurnStored(s', c)
  {
    forall i | 0 <= i < |c.proposals| ensures ProposalStored(s', c, i) {
      assert ProposalStored(s, c, i);
    }
  }

  lemma ProposalStoredGrows(s: State, s': State, c: TurnCommit, i: nat)
    requires i < |c.proposals| && ProposalStored(s, c, i) && Grows(s, s')
    ensures ProposalStored(s', c, i)
  {
  }

  ghost function Elements(ids: seq<Id>): set<Id> { set id | id in ids }

  lemma {:induction false} RelationshipsPresent(
    g: GraphRows, from: Id, parents: seq<Relationship>, edgeIds: seq<Id>, targets: seq<Id>, actor: Actor)
    requires |parents| == |edgeIds| == |targets|
    requires AddRelationships(g, from, parents, edgeIds, targets, actor).Ok?
    ensures var g' := AddRelationships(g, from, parents, edgeIds, targets, actor).value;
            && g'.nodes == g.nodes && g'.nodeFor == g.nodeFor
            && g'.edges.Keys == g.edges.Keys + Elements(edgeIds)
  {
    if parents != [] {
      var n := |parents| - 1;
      RelationshipsPresent(g, from, parents[..n], edgeIds[..n], targets[..n], actor);
      assert edgeIds == edgeIds[..n] + [edgeIds[n]];
    }
  }

  lemma NodeRows(g: GraphRows, node: Id, artifact: Id, c: Content, title: string)
    requires AddNode(g, node, artifact, c, title).Ok?
    ensures var g' := AddNode(g, node, artifact, c, title).value;
            && g'.nodes.Keys == g.nodes.Keys + {node} && g'.nodes[node].id == node
            && g'.nodeFor == g.nodeFor[artifact := node] && g'.edges == g.edges
  {
  }

  lemma ProjectRows(g: GraphRows, w: Write)
    requires Project(g, w).Ok?
    ensures var g' := Project(g, w).value;
            && g'.nodes.Keys == g.nodes.Keys + {w.node} && g'.nodes[w.node].id == w.node
            && g'.nodeFor == g.nodeFor[w.artifact.id := w.node]
            && g'.edges.Keys == g.edges.Keys + Elements(w.relationshipEdges)
  {
    hide AddNode, AddRelationships, Targets, Elements;
    var a := w.artifact;
    var targets := RelationshipTargets(g, a, w.relationshipEdges).value;
    var g1 := AddNode(g, w.node, a.id, a.content, w.title).value;
    TargetsLength(g, a.content.parents);
    NodeRows(g, w.node, a.id, a.content, w.title);
    RelationshipsPresent(g1, w.node, a.content.parents, w.relationshipEdges, targets, w.context.actor);
  }

  lemma AppendRows(l: Ledger, e: Event)
    requires Append(l, e).Ok?
    ensures Append(l, e).value.0.byId.Keys == l.byId.Keys + {e.Id()}
  {
  }

  /** The rows a commit adds, by identity. */
  lemma CommitRows(s: State, w: Write)
    requires Commit(s, w).Ok?
    ensures var s' := Commit(s, w).value.0;
            var a := w.artifact;
            && s'.artifacts == s.artifacts[a.id := a]
            && s'.graph.nodes.Keys == s.graph.nodes.Keys + {w.node} && s'.graph.nodes[w.node].id == w.node
            && s'.graph.nodeFor == s.graph.nodeFor[a.id := w.node]
            && s'.graph.edges.Keys == s.graph.edges.Keys + Elements(w.relationshipEdges)
            && s'.ledger.byId.Keys == s.ledger.byId.Keys + {w.context.event}
  {
    hide Commit, Project, Add, Append;
    CommitIsComposed(s, w);
    AddedRow(s.artifacts, w.artifact);
    ProjectRows(s.graph, w);
    AppendRows(s.ledger, ArtifactEvent(w.artifact, w.context, CommittedBody(w.artifact)));
  }

  lemma ProposalIsStored(s: State, c: TurnCommit, i: nat)
    requires i < |c.proposals| && Inv(s) && Commit(s, TurnWrite(c, i)).Ok?
    ensures ProposalStored(Commit(s, TurnWrite(c, i)).value.0, c, i)
    ensures var r := Commit(s, TurnWrite(c, i)).value.1;
            r.artifact.id == ArtifactId(c, i) && r.event == TurnEvent(c, i)
  {
    hide Commit, Inv;
    var w := TurnWrite(c, i);
    CommitRows(s, w);
    CommitKeepsInv(s, w);
    var s' := Commit(s, w).value.0;
    forall k | 0 <= k < |Attacks(c.proposals[i].payload)| ensures EdgeId(c, i, k) in s'.graph.edges {
      assert w.relationshipEdges[k] == EdgeId(c, i, k);
    }
  }

  lemma GrowsReflexive(s: State)
    ensures Grows(s, s)
  {
  }

  /** Writing proposals in order keeps the store's invariant and stores each of them. */
  lemma {:induction false} WriteFirstEffect(s: State, c: TurnCommit, n: nat)
    requires n <= |c.proposals| && Inv(s) && WriteFirst(s, c, n).Ok?
    ensures var (s', writes) := WriteFirst(s, c, n).value;
            && Inv(s') && Grows(s, s') && |writes| == n
            && (forall i | 0 <= i < n :: ProposalStored(s', c, i)
                 && writes[i].artifact.id == ArtifactId(c, i) && writes[i].event == TurnEvent(c, i))
  {
    hide Commit, Inv, Grows, ProposalStored;
    if n == 0 {
      GrowsReflexive(s);
    } else {
      WriteFirstEffect(s, c, n - 1);
      var (s1, writes) := WriteFirst(s, c, n - 1).value;
      CommitKeepsInv(s1, TurnWrite(c, n - 1));
      CommitGrows(s1, TurnWrite(c, n - 1));
      ProposalIsStored(s1, c, n - 1);
      var s2 := Commit(s1, TurnWrite(c, n - 1)).value.0;
      GrowsTransitive(s, s1, s2);
      forall i | 0 <= i < n - 1 ensures ProposalStored(s2, c, i) {
        ProposalStoredGrows(s1, s2, c, i);
      }
    }
  }

  lemma AppendOnlyGrows(s: State, e: Event)
    requires Append(s.ledger, e).Ok?
    ensures Grows(s, s.(ledger := Append(s.ledger, e).value.0))
  {
    AppendGrows(s.ledger, e);
  }

  lemma WriteTurnEffect(s: State, c: TurnCommit)
    requires Inv(s) && WriteTurn(s, c).Ok?
    ensures var (s', writes) := WriteTurn(s, c).value;
            && Inv(s') && Grows(s, s') && |writes| == |c.proposals|
            && (forall i | 0 <= i < |c.proposals| :: ProposalStored(s', c, i)
                 && writes[i].artifact.id == ArtifactId(c, i) && writes[i].event == TurnEvent(c, i))
            && CompletionId(c) in s'.ledger.byId
            && (CompletionId(c) !in WriteFirst(s, c, |c.proposals|).value.0.ledger.byId ==> TurnStored(s', c))
  {
    WriteFirstEffect(s, c, |c.proposals|);
    var s1 := WriteFirst(s, c, |c.proposals|).value.0;
    var s' := WriteTurn(s, c).value.0;
    AppendKeepsInv(s1, CompletionEvent(c));
    AppendOnlyGrows(s1, CompletionEvent(c));
    GrowsTransitive(s, s1, s');
    forall i | 0 <= i < |c.proposals| ensures ProposalStored(s', c, i) {
      ProposalStoredGrows(s1, s', c, i);
    }
  }

  // ---------------------------------------------------------------- identities

  /** All identities in use. */
  ghost function Ids(s: State): set<Id> {
    s.artifacts.Keys + s.graph.nodes.Keys + s.graph.edges.Keys + s.ledger.byId.Keys
  }

  ghost predicate From(turn: Id, id: Id) { id.OfTurn? && id.turn == turn }

  /** The identities under which a command writes its rows. */
  ghost predicate Owns(c: TurnCommit, id: Id) {
    && From(c.context.turn, id)
    && match id.turnRole
       case ArtifactRole | NodeRole | EventRole => id.index < |c.proposals| && id.ordinal == 0
       case RelationshipEdgeRole =>
         id.index < |c.proposals| && id.ordinal < |Attacks(c.proposals[id.index].payload)|
       case TurnEventRole => id.index == 0 && id.ordinal == 0
  }

  ghost function WriteIds(w: Write): set<Id> {
    {w.artifact.id, w.node, w.context.event} + Elements(w.relationshipEdges)
  }

  lemma CommitIds(s: State, w: Write)
    requires Commit(s, w).Ok?
    ensures Ids(Commit(s, w).value.0) == Ids(s) + WriteIds(w)
  {
    hide Commit;
    CommitRows(s, w);
    var s' := Commit(s, w).value.0;
    assert s'.artifacts.Keys == s.artifacts.Keys + {w.artifact.id};
  }

  lemma TurnWriteIds(c: TurnCommit, i: nat, id: Id)
    requires i < |c.proposals| && id in WriteIds(TurnWrite(c, i))
    ensures Owns(c, id) && !id.turnRole.TurnEventRole?
  {
  }

  lemma {:induction false} WriteFirstIds(s: State, c: TurnCommit, n: nat, id: Id)
    requires n <= |c.proposals| && WriteFirst(s, c, n).Ok? && id in Ids(WriteFirst(s, c, n).value.0)
    ensures id in Ids(s) || (Owns(c, id) && !id.turnRole.TurnEventRole?)
  {
    hide Commit, Ids, WriteIds, Owns;
    if n > 0 {
      var s1 := WriteFirst(s, c, n - 1).value.0;
      CommitIds(s1, TurnWrite(c, n - 1));
      if id in Ids(s1) { WriteFirstIds(s, c, n - 1, id); } else { TurnWriteIds(c, n - 1, id); }
    }
  }

  lemma WriteTurnIds(s: State, c: TurnCommit, id: Id)
    requires WriteTurn(s, c).Ok? && id in Ids(WriteTurn(s, c).value.0)
    ensures id in Ids(s) || Owns(c, id)
  {
    var s1 := WriteFirst(s, c, |c.proposals|).value.0;
    if id in Ids(s1) { WriteFirstIds(s, c, |c.proposals|, id); }
  }

  // ---------------------------------------------------------------- one turn, one command

  ghost predicate Traceless(s: State, turn: Id) {
    forall id | id in Ids(s) :: !From(turn, id)
  }

  /** The traces of a turn are exactly the rows of one command. */
  ghost predicate Whole(s: State, c: TurnCommit) {
    TurnStored(s, c) && forall id | id in Ids(s) && From(c.context.turn, id) :: Owns(c, id)
  }

  /** Every turn has left either nothing or everything that one command writes. */
  ghost predicate AllOrNothing(s: State) {
    forall turn :: Traceless(s, turn) || exists c: TurnCommit :: c.context.turn == turn && Whole(s, c)
  }

  lemma WholeGrows(s: State, s': State, c: TurnCommit)
    requires Whole(s, c) && Grows(s, s')
    requires forall id | id in Ids(s') && From(c.context.turn, id) :: id in Ids(s)
    ensures Whole(s', c)
  {
    StoredGrows(s, s', c);
  }

  /** Steps that add no identity derived from a turn leave every turn whole. */
  lemma ForeignKeepsAllOrNothing(s: State, s': State)
    requires AllOrNothing(s) && Grows(s, s') && forall id | id in Ids(s') && id.OfTurn? :: id in Ids(s)
    ensures AllOrNothing(s')
  {
    forall turn ensures Traceless(s', turn) || exists c: TurnCommit :: c.context.turn == turn && Whole(s', c) {
      if !Traceless(s, turn) {
        var c: TurnCommit :| c.context.turn == turn && Whole(s, c);
        WholeGrows(s, s', c);
      }
    }
  }

  lemma NoPriorIsTraceless(s: State, c: TurnCommit)
    requires AllOrNothing(s) && !AnyPrior(s, c)
    ensures Traceless(s, c.context.turn)
  {
  }

  /** A first commit of a turn: all its rows appear, under its own identities only. */
  lemma FreshCommitIsWhole(s: State, c: TurnCommit)
    requires Inv(s) && AllOrNothing(s) && !AnyPrior(s, c) && WriteTurn(s, c).Ok?
    ensures Whole(WriteTurn(s, c).value.0, c)
  {
    hide Inv, AllOrNothing, AnyPrior, TurnStored, Commit;
    NoPriorIsTraceless(s, c);
    WriteTurnEffect(s, c);
    var s1 := WriteFirst(s, c, |c.proposals|).value.0;
    var s' := WriteTurn(s, c).value.0;
    if CompletionId(c) in s1.ledger.byId {
      WriteFirstIds(s, c, |c.proposals|, CompletionId(c));
      assert false;
    }
    forall id | id in Ids(s') && From(c.context.turn, id) ensures Owns(c, id) {
      WriteTurnIds(s, c, id);
    }
  }

  lemma FreshCommitKeepsAllOrNothing(s: State, c: TurnCommit)
    requires Inv(s) && AllOrNothing(s) && !AnyPrior(s, c) && WriteTurn(s, c).Ok?
    ensures AllOrNothing(WriteTurn(s, c).value.0)
  {
    FreshCommitIsWhole(s, c);
    WriteTurnEffect(s, c);
    var s' := WriteTurn(s, c).value.0;
    forall turn ensures Traceless(s', turn) || exists d: TurnCommit :: d.context.turn == turn && Whole(s', d) {
      if turn != c.context.turn {
        forall id | id in Ids(s') && From(turn, id) ensures id in Ids(s) {
          WriteTurnIds(s, c, id);
        }
        if !Traceless(s, turn) {
          var d: TurnCommit :| d.context.turn == turn && Whole(s, d);
          WholeGrows(s, s', d);
        }
      }
    }
  }

  lemma {:induction false} PriorWritesEffect(s: State, c: TurnCommit, n: nat)
    requires n <= |c.proposals|
    ensures PriorWrites(s, c, n).Ok? <==> forall i | 0 <= i < n :: PriorWrite(s, c, i).Ok?
    ensures PriorWrites(s, c, n).Ok? ==>
              && |PriorWrites(s, c, n).value| == n
              && forall i | 0 <= i < n :: Ok(PriorWrites(s, c, n).value[i]) == PriorWrite(s, c, i)
  {
    hide PriorWrite;
    if n > 0 { PriorWritesEffect(s, c, n - 1); }
  }

  lemma StoredIsPrior(s: State, c: TurnCommit, i: nat)
    requires i < |c.proposals| && ProposalStored(s, c, i)
    ensures PriorWrite(s, c, i) == Ok(WriteResult(s.artifacts[ArtifactId(c, i)], TurnEvent(c, i)))
  {
  }

  /** Repeating a command whose rows are stored changes nothing and returns the stored artifacts and events. */
  lemma ReplayIsNoOp(s: State, c: TurnCommit, assignment: Option<Assignment>)
    requires TurnStored(s, c)
    requires (forall i | 0 <= i < |c.proposals| :: PayloadFits(c.proposals[i])) && CritiqueContract(c, assignment)
    ensures CommitTurn(s, c, assignment).Ok?
    ensures var (s', writes) := CommitTurn(s, c, assignment).value;
            && s' == s && |writes| == |c.proposals|
            && forall i | 0 <= i < |c.proposals| ::
                 ArtifactId(c, i) in s.artifacts
                 && writes[i] == WriteResult(s.artifacts[ArtifactId(c, i)], TurnEvent(c, i))
  {
    forall i | 0 <= i < |c.proposals|
      ensures ArtifactId(c, i) in s.artifacts
      ensures PriorWrite(s, c, i) == Ok(WriteResult(s.artifacts[ArtifactId(c, i)], TurnEvent(c, i)))
    {
      assert ProposalStored(s, c, i);
      StoredIsPrior(s, c, i);
    }
    PriorWritesEffect(s, c, |c.proposals|);
  }

  /** An accepted command, first or repeated, leaves a store that holds all of it. */
  lemma CommitTurnKeeps(s: State, c: TurnCommit, assignment: Option<Assignment>)
    requires Inv(s) && AllOrNothing(s) && CommitTurn(s, c, assignment).Ok?
    ensures var s' := CommitTurn(s, c, assignment).value.0;
            Inv(s') && AllOrNothing(s') && Grows(s, s') && TurnStored(s', c)
  {
    hide Inv, CritiqueContract, WriteTurn;
    if AnyPrior(s, c) {
      if Traceless(s, c.context.turn) {
        PriorTraces(s, c);
        assert false;
      }
      var d: TurnCommit :| d.context.turn == c.context.turn && Whole(s, d);
      assert CompletionEvent(d) == CompletionEvent(c);
      SameCompletionSameCommand(c, d);
    } else {
      WriteTurnEffect(s, c);
      FreshCommitIsWhole(s, c);
      FreshCommitKeepsAllOrNothing(s, c);
    }
  }

  lemma PriorTraces(s: State, c: TurnCommit)
    requires Inv(s) && AnyPrior(s, c)
    ensures !Traceless(s, c.context.turn)
  {
    if CompletionId(c) !in s.ledger.byId {
      var i :| 0 <= i < |c.proposals| && (ArtifactId(c, i) in s.artifacts
        || NodeForArtifact(s.graph, ArtifactId(c, i)).Some? || EventId(c, i) in s.ledger.byId);
      assert ArtifactId(c, i) in Ids(s) || EventId(c, i) in Ids(s);
    } else {
      assert CompletionId(c) in Ids(s);
    }
  }

  /** The completion event pins the whole command: context, bundle, execution data and time. */
  lemma SameCompletionSameCommand(c: TurnCommit, d: TurnCommit)
    requires CompletionEvent(c) == CompletionEvent(d)
    ensures c == d
  {
    assert TurnAttribution(c) == TurnAttribution(d);
  }

  lemma AcceptedGuards(s: State, c: TurnCommit, assignment: Option<Assignment>)
    requires CommitTurn(s, c, assignment).Ok?
    ensures (forall i | 0 <= i < |c.proposals| :: PayloadFits(c.proposals[i])) && CritiqueContract(c, assignment)
    ensures if AnyPrior(s, c) then CommitTurn(s, c, assignment).value.0 == s && IdempotentResult(s, c).Ok?
            else CommitTurn(s, c, assignment) == WriteTurn(s, c)
  {
  }

  /** At any later point of a run, repeating an accepted command is accepted, changes nothing and returns the same
      artifact identities and events, even when the artifacts were revised or withdrawn in between. */
  lemma RepeatedCommand(s: State, c: TurnCommit, assignment: Option<Assignment>, later: State)
    requires Inv(s) && AllOrNothing(s) && CommitTurn(s, c, assignment).Ok?
    requires Grows(CommitTurn(s, c, assignment).value.0, later)
    ensures CommitTurn(later, c, assignment).Ok?
    ensures var (_, writes) := CommitTurn(s, c, assignment).value;
            var (after, again) := CommitTurn(later, c, assignment).value;
            && after == later && |again| == |writes|
            && forall i | 0 <= i < |writes| ::
                 again[i].artifact.id == writes[i].artifact.id && again[i].event == writes[i].event
                 && again[i].artifact.content == writes[i].artifact.content
  {
    hide CommitTurn, Inv, AllOrNothing, Grows, CritiqueContract, AnyPrior;
    CommitTurnKeeps(s, c, assignment);
    AcceptedGuards(s, c, assignment);
    var (s', writes) := CommitTurn(s, c, assignment).value;
    StoredGrows(s', later, c);
    ReplayIsNoOp(later, c, assignment);
    FirstWritesLength(s, c, assignment);
    var again := CommitTurn(later, c, assignment).value.1;
    forall i | 0 <= i < |writes|
      ensures again[i].artifact.id == writes[i].artifact.id && again[i].event == writes[i].event
              && again[i].artifact.content == writes[i].artifact.content
    {
      FirstWrites(s, c, assignment, i);
      assert ProposalStored(later, c, i);
    }
  }

  lemma FirstWritesLength(s: State, c: TurnCommit, assignment: Option<Assignment>)
    requires Inv(s) && AllOrNothing(s) && CommitTurn(s, c, assignment).Ok?
    ensures |CommitTurn(s, c, assignment).value.1| == |c.proposals|
  {
    if AnyPrior(s, c) { PriorWritesEffect(s, c, |c.proposals|); } else { WriteTurnEffect(s, c); }
  }

  lemma FirstWrites(s: State, c: TurnCommit, assignment: Option<Assignment>, i: nat)
    requires Inv(s) && AllOrNothing(s) && CommitTurn(s, c, assignment).Ok? && i < |c.proposals|
    ensures var writes := CommitTurn(s, c, assignment).value.1;
            && |writes| == |c.proposals| && writes[i].artifact.id == ArtifactId(c, i)
            && writes[i].event == TurnEvent(c, i) && writes[i].artifact.content == PreparedContent(c, i)
  {
    hide Inv, AllOrNothing, WriteTurn, WriteFirst, IdempotentResult, CommitTurn, CritiqueContract, AnyPrior;
    AcceptedGuards(s, c, assignment);
    FirstWritesLength(s, c, assignment);
    if AnyPrior(s, c) {
      CommitTurnKeeps(s, c, assignment);
      ReplayIsNoOp(s, c, assignment);
      assert ProposalStored(s, c, i);
    } else {
      WriteTurnEffect(s, c);
      WriteTurnWrites(s, c);
      WriteContents(s, c, |c.proposals|, i);
    }
  }

  lemma WriteTurnWrites(s: State, c: TurnCommit)
    requires WriteTurn(s, c).Ok?
    ensures WriteFirst(s, c, |c.proposals|).Ok? && WriteTurn(s, c).value.1 == WriteFirst(s, c, |c.proposals|).value.1
  {
  }

  lemma CommittedArtifact(s: State, w: Write)
    requires Commit(s, w).Ok?
    ensures Commit(s, w).value.1.artifact == w.artifact
  {
  }

  lemma {:induction false} WriteContents(s: State, c: TurnCommit, n: nat, i: nat)
    requires i < n <= |c.proposals| && WriteFirst(s, c, n).Ok?
    ensures |WriteFirst(s, c, n).value.1| == n && WriteFirst(s, c, n).value.1[i].artifact == Prepared(c, i)
    decreases n
  {
    hide Commit;
    CommittedArtifact(WriteFirst(s, c, n - 1).value.0, TurnWrite(c, n - 1));
    if i < n - 1 { WriteContents(s, c, n - 1, i); }
    else if n > 1 { WriteContents(s, c, n - 1, 0); }
  }

  /** Two accepted commands of the same turn are one command. */
  lemma OneBundlePerTurn(
    s: State, c: TurnCommit, a: Option<Assignment>, later: State, d: TurnCommit, b: Option<Assignment>)
    requires Inv(s) && AllOrNothing(s) && CommitTurn(s, c, a).Ok?
    requires Grows(CommitTurn(s, c, a).value.0, later) && Inv(later) && AllOrNothing(later)
    requires CommitTurn(later, d, b).Ok? && c.context.turn == d.context.turn
    ensures c == d
  {
    CommitTurnKeeps(s, c, a);
    StoredGrows(CommitTurn(s, c, a).value.0, later, c);
    CommitTurnKeeps(later, d, b);
    StoredGrows(later, CommitTurn(later, d, b).value.0, c);
    SameCompletionSameCommand(c, d);
  }

  // ---------------------------------------------------------------- the service object

  lemma {:induction false} WriteFirstFails(s: State, c: TurnCommit, n: nat, m: nat)
    requires n <= m <= |c.proposals| && WriteFirst(s, c, n).Err?
    ensures WriteFirst(s, c, m) == Err(WriteFirst(s, c, n).error)
    decreases m
  {
    hide ArtifactStore.Commit, TurnWrite;
    if n < m { WriteFirstFails(s, c, n, m - 1); }
  }

  lemma {:induction false} PriorWritesFail(s: State, c: TurnCommit, n: nat, m: nat)
    requires n <= m <= |c.proposals| && PriorWrites(s, c, n).Err?
    ensures PriorWrites(s, c, m) == Err(PriorWrites(s, c, n).error)
    decreases m
  {
    hide PriorWrite;
    if n < m { PriorWritesFail(s, c, n, m - 1); }
  }

  lemma RequiredKindsNext(refs: seq<Reference>, r: Reference, id: Id)
    ensures RequiredKinds(refs + [r], id) == RequiredKinds(refs, id) + if r.target == id then r.kinds else {}
  {
    var more := RequiredKinds(refs + [r], id);
    forall k | k in RequiredKinds(refs, id) + (if r.target == id then r.kinds else {}) ensures k in more {
      if k in RequiredKinds(refs, id) {
        var q :| q in refs && q.target == id && k in q.kinds;
        assert q in refs + [r];
      } else {
        assert r in refs + [r];
      }
    }
  }

  class AgentProposalCommitter {
    const commits: ArtifactCommitService

    constructor (service: ArtifactCommitService)
      ensures commits == service
    {
      commits := service;
    }

    /** The kinds every referenced artifact may have, gathered over the whole bundle. */
    method GatherReferences(refs: seq<Reference>) returns (required: map<Id, set<Kind>>)
      ensures forall id :: id in required <==> exists i | 0 <= i < |refs| :: refs[i].target == id
      ensures forall id | id in required :: required[id] == RequiredKinds(refs, id)
    {
      required := map[];
      var n := 0;
      while n < |refs|
        invariant 0 <= n <= |refs|
        invariant forall id :: id in required <==> exists i | 0 <= i < n :: refs[i].target == id
        invariant forall id :: (if id in required then required[id] else {}) == RequiredKinds(refs[..n], id)
      {
        var r := refs[n];
        assert refs[..n + 1] == refs[..n] + [r];
        forall id ensures RequiredKinds(refs[..n + 1], id)
                       == RequiredKinds(refs[..n], id) + if r.target == id then r.kinds else {}
        {
          RequiredKindsNext(refs[..n], r, id);
        }
        var known := if r.target in required then required[r.target] else {};
        required := required[r.target := known + r.kinds];
        n := n + 1;
      }
      assert refs[..n] == refs;
    }

    method CheckReferences(context: Context, refs: seq<Reference>) returns (r: Check)
      ensures r == Preflight(commits.artifacts, context, refs)
    {
      var required := GatherReferences(refs);
      if exists id | id in required :: SnapshotContent(context.visible, id).None? {
        return Refuse(Unauthorized);
      }
      assert forall i | 0 <= i < |refs| :: refs[i].target in required;
      var todo := required.Keys;
      while todo != {}
        invariant todo <= required.Keys
        invariant forall id | id in required && id !in todo :: ReferenceOk(commits.artifacts, context, refs, id)
        decreases todo
      {
        var id :| id in todo;
        var found := id in commits.artifacts;
        if !found { return Refuse(ReferenceInvalid); }
        var a := commits.artifacts[id];
        if !(a.status.ACTIVE? && a.content.round <= context.round
             && SnapshotContent(context.visible, id) == Some(a.content)
             && (required[id] == {} || a.content.kind in required[id])) {
          return Refuse(ReferenceInvalid);
        }
        todo := todo - {id};
      }
      return Pass;
    }

    method PriorResult(c: TurnCommit) returns (r: Result<seq<WriteResult>>)
      ensures r == IdempotentResult(commits.View(), c)
    {
      hide PriorWrite, CompletionEvent;
      if exists i | 0 <= i < |c.proposals| :: ArtifactId(c, i) !in commits.artifacts {
        return Err(PriorCommitConflict);
      }
      var writes := [];
      var i := 0;
      while i < |c.proposals|
        invariant 0 <= i <= |c.proposals|
        invariant PriorWrites(commits.View(), c, i) == Ok(writes)
      {
        var prior := PriorWrite(commits.View(), c, i);
        if prior.Err? {
          PriorWritesFail(commits.View(), c, i + 1, |c.proposals|);
          return Err(prior.error);
        }
        writes := writes + [prior.value];
        i := i + 1;
      }
      if CompletionId(c) !in commits.ledger.byId || commits.ledger.byId[CompletionId(c)] != CompletionEvent(c) {
        return Err(PriorCommitConflict);
      }
      return Ok(writes);
    }

    method WriteProposals(c: TurnCommit) returns (r: Result<seq<WriteResult>>)
      modifies commits
      ensures match WriteFirst(old(commits.View()), c, |c.proposals|)
              case Ok(done) => r == Ok(done.1) && commits.View() == done.0
              case Err(e) => r == Err(e)
    {
      hide ArtifactStore.Commit, TurnWrite;
      ghost var s0 := commits.View();
      var writes := [];
      var i := 0;
      while i < |c.proposals|
        invariant 0 <= i <= |c.proposals|
        invariant WriteFirst(s0, c, i) == Ok((commits.View(), writes))
      {
        var write := commits.Commit(TurnWrite(c, i));
        if write.Err? {
          WriteFirstFails(s0, c, i + 1, |c.proposals|);
          return Err(write.error);
        }
        writes := writes + [write.value];
        i := i + 1;
      }
      return Ok(writes);
    }

    /** An error leaves whatever was written; the caller rolls its transaction back. */
    method Commit(c: TurnCommit, assignment: Option<Assignment>) returns (r: Result<seq<WriteResult>>)
      modifies commits
      ensures match CommitTurn(old(commits.View()), c, assignment)
              case Ok(done) => r == Ok(done.1) && commits.View() == done.0
              case Err(e) => r == Err(e)
    {
      hide WriteFirst, CompletionEvent, IdempotentResult, Preflight, CritiqueContract, AnyPrior;
      if exists i | 0 <= i < |c.proposals| :: !PayloadFits(c.proposals[i]) { return Err(BadPayload); }
      :- Need(CritiqueContract(c, assignment), BadAssignment);
      if AnyPrior(commits.View(), c) {
        r := PriorResult(c);
        return;
      }
      var refs := AllReferences(c.proposals);
      var checked := CheckReferences(c.context, refs);
      :- checked;
      var writes :- WriteProposals(c);
      var appended :- Append(commits.ledger, CompletionEvent(c));
      commits.ledger := appended.0;
      return Ok(writes);
    }
  }
}
