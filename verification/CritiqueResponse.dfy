/** Committing an agent's response to a critique: a revision of the critique, for REVISE also of its target, and the
    append-only request and result rows that make a retry recognizable. */
module CritiqueResponse {
  import opened Options
  import opened Records
  import opened ArtifactStore
  import opened StoreInvariants
  import opened ArtifactService
  import opened ProposalCommit

  datatype ResponseCommand = ResponseCommand(context: Context, response: Response, execution: nat, committedAt: int)
  {
    function Id(): Id { response.id }
  }

  datatype ResultStatus = RESULT_RESOLVED | RESULT_UNRESOLVED | RESULT_DISPUTED | REVISED | EVIDENCE_REQUESTED
                        | SIMULATION_DEFERRED | ABSTAINED

  datatype Request = Request(response: Response, execution: Attribution, requestedAt: int)

  datatype Outcome = Outcome(
    response: Id, status: ResultStatus, disposition: Disposition, resolution: Resolution, critiqueRevision: Id,
    critiqueVersion: nat, targetRevision: Option<(Id, nat)>, event: Id, committedAt: int)

  datatype Responses = Responses(store: State, requests: map<Id, Request>, results: map<Id, Outcome>)

  // ---------------------------------------------------------------- values of a command

  function ResolutionOf(d: Disposition): Resolution {
    match d
    case ACCEPT | REVISE => RESOLVED
    case REJECT_WITH_JUSTIFICATION => DISPUTED
    case PARTIALLY_ACCEPT | REQUEST_EVIDENCE | REQUEST_SIMULATION | ABSTAIN => UNRESOLVED
  }

  function StatusOf(d: Disposition): ResultStatus {
    match d
    case ACCEPT => RESULT_RESOLVED
    case PARTIALLY_ACCEPT => RESULT_UNRESOLVED
    case REJECT_WITH_JUSTIFICATION => RESULT_DISPUTED
    case REVISE => REVISED
    case REQUEST_EVIDENCE => EVIDENCE_REQUESTED
    case REQUEST_SIMULATION => SIMULATION_DEFERRED
    case ABSTAIN => ABSTAINED
  }

  /** A sealed REVISE turn, and exactly the supporting data that the disposition calls for. */
  predicate WellFormed(c: ResponseCommand) {
    && c.context.phase.RevisePhase? && c.context.sealed
    && (c.response.disposition.REVISE? <==> c.response.revision.Some?)
    && (c.response.disposition.REJECT_WITH_JUSTIFICATION? <==> c.response.warrants != {})
  }

  function ResponseId(c: ResponseCommand, role: ResponseRole): Id { OfResponse(c.Id(), role, 0) }

  function ResponseAttribution(c: ResponseCommand): Attribution {
    Attribution(c.context, Answer(c.response), c.execution, c.committedAt)
  }

  function RequestOf(c: ResponseCommand): Request {
    Request(c.response, ResponseAttribution(c), c.committedAt)
  }

  function ResultOf(c: ResponseCommand): Outcome {
    var d := c.response.disposition;
    Outcome(c.Id(), StatusOf(d), d, ResolutionOf(d), ResponseId(c, CritiqueRevisionRole),
            c.response.critiqueVersion + 1,
            if d.REVISE? then Some((ResponseId(c, TargetRevisionRole), c.response.targetVersion + 1)) else None,
            ResponseId(c, ResponseEventRole), c.committedAt)
  }

  function RevisionContent(
    c: ResponseCommand, previous: Artifact, payload: Payload, parents: seq<Relationship>, confidence: Confidence,
    evidence: Option<nat>): Content
  {
    var p := previous.content;
    var metadata := p.metadata.(attribution := Some(ResponseAttribution(c)),
                                response := Some((c.Id(), c.response.disposition)));
    p.(version := p.version + 1, supersedes := Some(previous.id), round := c.context.round, payload := payload,
       parents := parents, confidence := confidence,
       metadata := if evidence.Some? then metadata.(evidence := evidence) else metadata,
       provenance := if p.kind.Fact? || p.kind.Evidence? then p.provenance else c.execution)
  }

  function CritiqueRevision(c: ResponseCommand, critique: Artifact): Artifact
    requires critique.content.payload.CritiquePayload?
  {
    var p := critique.content;
    Artifact(ResponseId(c, CritiqueRevisionRole),
             RevisionContent(c, critique, p.payload.(resolution := ResolutionOf(c.response.disposition)),
                             [Relationship(ATTACKS, c.response.target)], p.confidence, None),
             ACTIVE, c.committedAt)
  }

  /** The relationships a revised target inherits. */
  function Inherited(parents: seq<Relationship>): seq<Relationship> {
    if parents == [] then []
    else if parents[0].edgeType in {SUPERSEDES, RESPONDS_TO, ATTACKS} then Inherited(parents[1..])
    else [parents[0]] + Inherited(parents[1..])
  }

  function TargetRevision(c: ResponseCommand, target: Artifact, revision: Proposal): Artifact {
    var parents := Inherited(target.content.parents) + Attacks(revision.payload)
                 + [Relationship(RESPONDS_TO, c.response.critique)];
    Artifact(ResponseId(c, TargetRevisionRole),
             RevisionContent(c, target, revision.payload, parents, revision.confidence, revision.evidence),
             ACTIVE, c.committedAt)
  }

  function ResponseContext(c: ResponseCommand, role: ResponseRole): EventContext {
    EventContext(ResponseId(c, role), c.context.correlation, Some(c.context.causation), Actor(AGENT, c.context.agent),
                 c.committedAt)
  }

  function CritiqueWrite(c: ResponseCommand, critique: Artifact): Write
    requires critique.content.payload.CritiquePayload?
  {
    Write(CritiqueRevision(c, critique), ResponseId(c, CritiqueNodeRole), [ResponseId(c, CritiqueAttacksRole)],
          TITLE, ResponseContext(c, CritiqueEventRole))
  }

  function TargetWrite(c: ResponseCommand, target: Artifact, revision: Proposal): Write {
    var a := TargetRevision(c, target, revision);
    var edges := seq(|a.content.parents|, k requires 0 <= k < |a.content.parents| =>
                     OfResponse(c.Id(), TargetRelationshipRole, k));
    Write(a, ResponseId(c, TargetNodeRole), edges, TITLE, ResponseContext(c, TargetEventRole))
  }

  const CRITIQUE_REASON := "Critique response"
  const TARGET_REASON := "Response to Critique"

  function ResponseEvent(c: ResponseCommand): Event {
    var target := if c.response.revision.Some? then Some(ResponseId(c, TargetRevisionRole)) else None;
    Event(ResponseContext(c, ResponseEventRole), c.context.round,
          CritiqueResponded(c.Id(), ResponseId(c, CritiqueRevisionRole), target, ResolutionOf(c.response.disposition)),
          Some(ResponseAttribution(c)), None)
  }

  // ---------------------------------------------------------------- guards

  /** An artifact is projected, not from the future, and exactly what the turn was shown. */
  predicate Current(s: State, c: Context, id: Id) {
    && id in s.artifacts && SnapshotContent(c.visible, id) == Some(s.artifacts[id].content)
    && s.artifacts[id].content.round <= c.round && NodeForArtifact(s.graph, id).Some?
  }

  function Required(r: Response): set<Id> { {r.critique, r.target} + r.warrants }

  predicate RevisionReferenceOk(s: State, c: ResponseCommand, r: Reference) {
    && Current(s, c.context, r.target)
    && (r.target in Required(c.response) || s.artifacts[r.target].status.ACTIVE?)
    && (r.kinds == {} || s.artifacts[r.target].content.kind in r.kinds)
  }

  function CheckRevision(s: State, c: ResponseCommand, revision: Proposal): Check
    requires c.response.target in s.artifacts
  {
    var refs := References(revision);
    if !PayloadFits(revision) then Refuse(BadPayload)
    else if exists i | 0 <= i < |refs| :: !RevisionReferenceOk(s, c, refs[i]) then Refuse(ReferenceInvalid)
    else if revision.kind != s.artifacts[c.response.target].content.kind then Refuse(NotSameLineage)
    else Pass
  }

  /** The heads, owners and warrants of a response. */
  function CheckHeads(s: State, c: ResponseCommand): Check
    requires forall id | id in Required(c.response) :: id in s.artifacts
  {
    var r := c.response;
    var critique, target := s.artifacts[r.critique], s.artifacts[r.target];
    if !critique.content.kind.Critique? || !critique.content.payload.CritiquePayload? then Refuse(ReferenceInvalid)
    else if critique.content.version != r.critiqueVersion || !critique.status.ACTIVE? then Refuse(Stale)
    else if critique.content.payload.resolution.RESOLVED? then Refuse(Stale)
    else if critique.content.payload.target != target.id then Refuse(ReferenceInvalid)
    else if target.content.version != r.targetVersion || !target.status.ACTIVE? then Refuse(Stale)
    else if target.content.owner != Actor(AGENT, c.context.agent) then Refuse(NotOwner)
    else if r.disposition.REJECT_WITH_JUSTIFICATION?
            && exists id | id in r.warrants :: id in {critique.id, target.id} || !s.artifacts[id].status.ACTIVE?
         then Refuse(WarrantsInvalid)
    else Pass
  }

  function CheckResponse(s: State, c: ResponseCommand): Check {
    var required := Required(c.response);
    if exists id | id in required :: SnapshotContent(c.context.visible, id).None? then Refuse(Unauthorized)
    else if exists id | id in required :: !Current(s, c.context, id) then Refuse(ReferenceInvalid)
    else if CheckHeads(s, c).Refuse? then CheckHeads(s, c)
    else if c.response.revision.Some? then CheckRevision(s, c, c.response.revision.value)
    else Pass
  }

  // ---------------------------------------------------------------- the command

  predicate HasRow(s: State, id: Id, version: nat, node: Id) {
    && id in s.artifacts && s.artifacts[id].content.version == version
    && NodeForArtifact(s.graph, id).Some? && NodeForArtifact(s.graph, id).value.id == node
  }

  /** Whether the effects that a stored result names are there. */
  predicate EffectsPresent(s: State, o: Outcome) {
    && HasRow(s, o.critiqueRevision, o.critiqueVersion, OfResponse(o.response, CritiqueNodeRole, 0))
    && (o.targetRevision.Some? ==>
          HasRow(s, o.targetRevision.value.0, o.targetRevision.value.1, OfResponse(o.response, TargetNodeRole, 0)))
    && o.event in s.ledger.byId && s.ledger.byId[o.event].body.CritiqueResponded?
    && s.ledger.byId[o.event].body.response == o.response
  }

  lemma CheckedHeads(s: State, c: ResponseCommand)
    requires CheckResponse(s, c).Pass?
    ensures c.response.critique in s.artifacts && c.response.target in s.artifacts
    ensures s.artifacts[c.response.critique].content.payload.CritiquePayload?
    ensures s.artifacts[c.response.critique].content.version == c.response.critiqueVersion
    ensures s.artifacts[c.response.target].content.version == c.response.targetVersion
  {
    assert c.response.critique in Required(c.response) && c.response.target in Required(c.response);
  }

  function ReviseCritique(s: State, c: ResponseCommand): Result<(State, WriteResult)>
    requires CheckResponse(s, c).Pass?
  {
    CheckedHeads(s, c);
    Revise(s, CritiqueWrite(c, s.artifacts[c.response.critique]), ResponseId(c, CritiqueSupersedesRole),
           CRITIQUE_REASON)
  }

  function ReviseTarget(s: State, c: ResponseCommand, target: Artifact): Result<State> {
    if c.response.revision.None? then Ok(s)
    else
      var (s', _) :- Revise(s, TargetWrite(c, target, c.response.revision.value),
                            ResponseId(c, TargetSupersedesRole), TARGET_REASON);
      Ok(s')
  }

  function WriteResponse(s: State, c: ResponseCommand): Result<State>
    requires CheckResponse(s, c).Pass?
  {
    CheckedHeads(s, c);
    var (s1, _) :- ReviseCritique(s, c);
    var s2 :- ReviseTarget(s1, c, s.artifacts[c.response.target]);
    var (ledger, _) :- Append(s2.ledger, ResponseEvent(c));
    Ok(s2.(ledger := ledger))
  }

  function CommitResponse(s: Responses, c: ResponseCommand): Result<(Responses, Outcome)> {
    if !WellFormed(c) then Err(MalformedCommand)
    else if c.Id() in s.requests || c.Id() in s.results then
      if c.Id() in s.requests && s.requests[c.Id()] == RequestOf(c)
         && c.Id() in s.results && s.results[c.Id()] == ResultOf(c) && EffectsPresent(s.store, s.results[c.Id()])
      then Ok((s, s.results[c.Id()]))
      else Err(PriorCommitConflict)
    else if CheckResponse(s.store, c).Refuse? then Err(CheckResponse(s.store, c).error)
    else
      var store :- WriteResponse(s.store, c);
      Ok((Responses(store, s.requests[c.Id() := RequestOf(c)], s.results[c.Id() := ResultOf(c)]), ResultOf(c)))
  }

  // ---------------------------------------------------------------- what a response does

  ghost predicate ResponsesGrow(s: Responses, t: Responses) {
    && Grows(s.store, t.store)
    && (forall r | r in s.requests :: r in t.requests && t.requests[r] == s.requests[r])
    && (forall r | r in s.results :: r in t.results && t.results[r] == s.results[r])
  }

  /** The rows a revision adds, by identity. */
  lemma ReviseRows(s: State, w: Write, edge: Id, reason: string)
    requires Revise(s, w, edge, reason).Ok?
    ensures var s' := Revise(s, w, edge, reason).value.0;
            && s'.graph.nodes.Keys == s.graph.nodes.Keys + {w.node} && s'.graph.nodes[w.node].id == w.node
            && s'.graph.nodeFor == s.graph.nodeFor[w.artifact.id := w.node]
            && s'.graph.edges.Keys == s.graph.edges.Keys + Elements(w.relationshipEdges) + {edge}
            && s'.ledger.byId.Keys == s.ledger.byId.Keys + {w.context.event}
            && s'.artifacts.Keys == s.artifacts.Keys + {w.artifact.id}
  {
    hide Revise, Project, AddEdge, Add, Append;
    ReviseIsComposed(s, w, edge, reason);
    ProjectRows(s.graph, w);
    EdgeRows(Project(s.graph, w).value,
             Edge(edge, w.node, NodeForArtifact(s.graph, w.artifact.content.supersedes.value).value.id, SUPERSEDES,
                  w.context.actor));
    AppendRows(s.ledger, ArtifactEvent(w.artifact, w.context,
                                       RevisedBody(w.artifact, w.artifact.content.supersedes.value, reason)));
  }

  lemma EdgeRows(g: GraphRows, e: Edge)
    requires AddEdge(g, e).Ok?
    ensures var g' := AddEdge(g, e).value;
            g'.nodes == g.nodes && g'.nodeFor == g.nodeFor && g'.edges.Keys == g.edges.Keys + {e.id}
  {
  }

  lemma HasRowGrows(s: State, t: State, id: Id, version: nat, node: Id)
    requires HasRow(s, id, version, node) && Grows(s, t)
    ensures HasRow(t, id, version, node)
  {
  }

  /** One revision inside a response: what it keeps, and the row it leaves. */
  lemma RevisionEffect(s: State, w: Write, edge: Id, reason: string)
    requires Inv(s) && Revise(s, w, edge, reason).Ok?
    ensures var s' := Revise(s, w, edge, reason).value.0;
            && Inv(s') && Grows(s, s') && HasRow(s', w.artifact.id, w.artifact.content.version, w.node)
            && w.artifact.id !in s.artifacts
            && w.artifact.content.supersedes.Some? && w.artifact.content.supersedes.value in s.artifacts
            && s'.artifacts == Superseding(s.artifacts, w.artifact, w.context.recordedAt)
            && s.artifacts[w.artifact.content.supersedes.value].status.ACTIVE?
  {
    hide Revise, Inv, Grows;
    ReviseKeepsInv(s, w, edge, reason);
    ReviseGrows(s, w, edge, reason);
    ReviseRows(s, w, edge, reason);
  }

  /** The versions of a lineage that exist. */
  ghost function Lineage(arts: map<Id, Artifact>, logical: Id): set<Id> {
    set id | id in arts && arts[id].content.logicalId == logical
  }

  lemma LineageAfterRevision(arts: map<Id, Artifact>, a: Artifact, at: int, logical: Id)
    requires a.id !in arts && a.content.supersedes.Some? && a.content.supersedes.value in arts
    ensures Lineage(Superseding(arts, a, at), logical)
         == Lineage(arts, logical) + if a.content.logicalId == logical then {a.id} else {}
  {
    SupersedingRows(arts, a, at);
  }

  lemma LineageGrowsByOne(arts: map<Id, Artifact>, a: Artifact, at: int, logical: Id)
    requires a.id !in arts && a.content.supersedes.Some? && a.content.supersedes.value in arts
    ensures |Lineage(Superseding(arts, a, at), logical)|
         == |Lineage(arts, logical)| + if a.content.logicalId == logical then 1 else 0
  {
    LineageAfterRevision(arts, a, at, logical);
  }

  lemma ArtifactOfHead(s: State, c: ResponseCommand)
    requires Inv(s) && CheckResponse(s, c).Pass?
    ensures var r := c.response;
            && r.critique in s.artifacts && s.artifacts[r.critique].id == r.critique
            && r.target in s.artifacts && s.artifacts[r.target].id == r.target
            && s.artifacts[r.critique].content.payload.CritiquePayload?
            && s.artifacts[r.critique].content.version == r.critiqueVersion
            && s.artifacts[r.target].content.version == r.targetVersion
  {
    CheckedHeads(s, c);
    assert RowOk(s.artifacts, c.response.critique);
    assert RowOk(s.artifacts, c.response.target);
  }

  function Advance(cond: bool): nat { if cond then 1 else 0 }

  /** The effect of a first response on every lineage: the critique's advances by one version, its target's by one
      more for REVISE, and no other changes. */
  lemma FirstResponse(s: State, c: ResponseCommand, logical: Id)
    requires Inv(s) && WellFormed(c) && CheckResponse(s, c).Pass? && WriteResponse(s, c).Ok?
    ensures var s' := WriteResponse(s, c).value;
            var r := c.response;
            && Inv(s') && Grows(s, s') && EffectsPresent(s', ResultOf(c))
            && r.critique in s.artifacts && r.target in s.artifacts
            && |Lineage(s'.artifacts, logical)|
               == |Lineage(s.artifacts, logical)|
                  + Advance(logical == s.artifacts[r.critique].content.logicalId)
                  + Advance(r.disposition.REVISE? && logical == s.artifacts[r.target].content.logicalId)
  {
    hide Revise, Inv, Grows, HasRow, CheckResponse, Append, References;
    ArtifactOfHead(s, c);
    var r := c.response;
    var critique, target := s.artifacts[r.critique], s.artifacts[r.target];
    var w1 := CritiqueWrite(c, critique);
    var s1 := ReviseCritique(s, c).value.0;
    RevisionEffect(s, w1, ResponseId(c, CritiqueSupersedesRole), CRITIQUE_REASON);
    LineageGrowsByOne(s.artifacts, w1.artifact, w1.context.recordedAt, logical);
    var s2 := ReviseTarget(s1, c, target).value;
    if r.revision.Some? {
      var w2 := TargetWrite(c, target, r.revision.value);
      RevisionEffect(s1, w2, ResponseId(c, TargetSupersedesRole), TARGET_REASON);
      LineageGrowsByOne(s1.artifacts, w2.artifact, w2.context.recordedAt, logical);
      HasRowGrows(s1, s2, w1.artifact.id, w1.artifact.content.version, w1.node);
      GrowsTransitive(s, s1, s2);
    }
    FinishResponse(s, s2, c);
  }

  lemma FinishResponse(s0: State, s: State, c: ResponseCommand)
    requires Inv(s) && Grows(s0, s) && Append(s.ledger, ResponseEvent(c)).Ok?
    requires HasRow(s, ResponseId(c, CritiqueRevisionRole), c.response.critiqueVersion + 1,
                    ResponseId(c, CritiqueNodeRole))
    requires c.response.disposition.REVISE? ==>
               HasRow(s, ResponseId(c, TargetRevisionRole), c.response.targetVersion + 1, ResponseId(c, TargetNodeRole))
    ensures var s' := s.(ledger := Append(s.ledger, ResponseEvent(c)).value.0);
            Inv(s') && Grows(s0, s') && EffectsPresent(s', ResultOf(c))
  {
    hide Inv, Grows;
    AppendKeepsInv(s, ResponseEvent(c));
    AppendOnlyGrows(s, ResponseEvent(c));
    GrowsTransitive(s0, s, s.(ledger := Append(s.ledger, ResponseEvent(c)).value.0));
    AppendStores(s.ledger, ResponseEvent(c));
  }

  lemma AppendStores(l: Ledger, e: Event)
    requires Append(l, e).Ok?
    ensures e.Id() in Append(l, e).value.0.byId && Append(l, e).value.0.byId[e.Id()].body == e.body
  {
  }

  /** The identities a first response adds are all derived from the response. */
  lemma FirstResponseIds(s: State, c: ResponseCommand, id: Id)
    requires Inv(s) && CheckResponse(s, c).Pass? && WriteResponse(s, c).Ok?
    requires id in Ids(WriteResponse(s, c).value)
    ensures id in Ids(s) || id.OfResponse?
  {
    hide Revise, Inv, CheckResponse, References, TargetRevision, CritiqueRevision;
    ArtifactOfHead(s, c);
    var r := c.response;
    var critique, target := s.artifacts[r.critique], s.artifacts[r.target];
    var s1 := ReviseCritique(s, c).value.0;
    ReviseRows(s, CritiqueWrite(c, critique), ResponseId(c, CritiqueSupersedesRole), CRITIQUE_REASON);
    RevisionIdsOf(c);
    if r.revision.Some? {
      ReviseRows(s1, TargetWrite(c, target, r.revision.value), ResponseId(c, TargetSupersedesRole), TARGET_REASON);
      TargetRevisionIdOf(c, target, r.revision.value);
    }
    CritiqueRevisionIdOf(c, critique);
  }

  lemma RevisionIdsOf(c: ResponseCommand)
    ensures forall role :: ResponseId(c, role).OfResponse?
  {
  }

  lemma CritiqueRevisionIdOf(c: ResponseCommand, critique: Artifact)
    requires critique.content.payload.CritiquePayload?
    ensures CritiqueRevision(c, critique).id.OfResponse?
  {
  }

  lemma TargetRevisionIdOf(c: ResponseCommand, target: Artifact, revision: Proposal)
    ensures TargetRevision(c, target, revision).id.OfResponse?
    ensures forall e | e in TargetWrite(c, target, revision).relationshipEdges :: e.OfResponse?
  {
  }

  // ---------------------------------------------------------------- replay

  lemma EffectsGrow(s: State, t: State, o: Outcome)
    requires EffectsPresent(s, o) && Grows(s, t)
    ensures EffectsPresent(t, o)
  {
    hide HasRow;
    HasRowGrows(s, t, o.critiqueRevision, o.critiqueVersion, OfResponse(o.response, CritiqueNodeRole, 0));
    if o.targetRevision.Some? {
      HasRowGrows(s, t, o.targetRevision.value.0, o.targetRevision.value.1, OfResponse(o.response, TargetNodeRole, 0));
    }
  }

  /** An accepted response, first or repeated, keeps the store's invariant and leaves its rows and its effects. */
  lemma CommitResponseKeeps(s: Responses, c: ResponseCommand)
    requires Inv(s.store) && CommitResponse(s, c).Ok?
    ensures var (s', o) := CommitResponse(s, c).value;
            && Inv(s'.store) && ResponsesGrow(s, s') && o == ResultOf(c)
            && c.Id() in s'.requests && s'.requests[c.Id()] == RequestOf(c)
            && c.Id() in s'.results && s'.results[c.Id()] == o && EffectsPresent(s'.store, o)
  {
    hide CheckResponse, WriteResponse, Inv, EffectsPresent, WellFormed;
    if c.Id() in s.requests || c.Id() in s.results {
      GrowsReflexive(s.store);
    } else {
      FirstResponse(s.store, c, c.Id());
    }
  }

  /** At any later point of a run, repeating an accepted response changes nothing and returns the stored result. */
  lemma RepeatedResponse(s: Responses, c: ResponseCommand, later: Responses)
    requires Inv(s.store) && CommitResponse(s, c).Ok? && ResponsesGrow(CommitResponse(s, c).value.0, later)
    ensures CommitResponse(later, c) == Ok((later, CommitResponse(s, c).value.1))
  {
    hide CheckResponse, WriteResponse, Inv, EffectsPresent;
    CommitResponseKeeps(s, c);
    var (s', o) := CommitResponse(s, c).value;
    EffectsGrow(s'.store, later.store, o);
  }

  /** Once a response identity has taken effect, no command under that identity, equal or not, changes anything. */
  lemma AtMostOnce(s: Responses, c: ResponseCommand, later: Responses, d: ResponseCommand)
    requires Inv(s.store) && CommitResponse(s, c).Ok? && ResponsesGrow(CommitResponse(s, c).value.0, later)
    requires d.Id() == c.Id() && CommitResponse(later, d).Ok?
    ensures CommitResponse(later, d).value.0 == later && d == c
  {
    hide CheckResponse, WriteResponse, Inv, EffectsPresent;
    CommitResponseKeeps(s, c);
    assert RequestOf(d) == RequestOf(c);
  }

  /** A REVISE response never revises the critique it answers as its own target. */
  lemma RevisedTargetIsAnotherLineage(s: State, c: ResponseCommand)
    requires Inv(s) && WellFormed(c) && c.response.disposition.REVISE?
    requires CheckResponse(s, c).Pass? && WriteResponse(s, c).Ok?
    ensures c.response.critique != c.response.target
    ensures c.response.critique in s.artifacts && c.response.target in s.artifacts
    ensures s.artifacts[c.response.critique].content.logicalId != s.artifacts[c.response.target].content.logicalId
  {
    hide Revise, Inv, CheckResponse, References;
    ArtifactOfHead(s, c);
    var r := c.response;
    var critique, target := s.artifacts[r.critique], s.artifacts[r.target];
    var w1 := CritiqueWrite(c, critique);
    RevisionEffect(s, w1, ResponseId(c, CritiqueSupersedesRole), CRITIQUE_REASON);
    var s1 := ReviseCritique(s, c).value.0;
    SupersedingRows(s.artifacts, w1.artifact, w1.context.recordedAt);
    RevisionEffect(s1, TargetWrite(c, target, r.revision.value), ResponseId(c, TargetSupersedesRole), TARGET_REASON);
    if critique.content.logicalId == target.content.logicalId {
      ActiveIsHead(s1, w1.artifact.id, r.target);
      assert false;
    }
  }

  /** At most one version of a logical artifact is ACTIVE. */
  lemma ActiveIsHead(s: State, x: Id, y: Id)
    requires Inv(s) && x in s.artifacts && y in s.artifacts
    requires s.artifacts[x].status.ACTIVE? && s.artifacts[y].status.ACTIVE?
    requires s.artifacts[x].content.logicalId == s.artifacts[y].content.logicalId
    ensures x == y
  {
    var n := LineageIsLinear(s.artifacts, s.artifacts[x].content.logicalId);
    assert HasVersion(s.artifacts, s.artifacts[x].content.logicalId, s.artifacts[x].content.version);
    assert HasVersion(s.artifacts, s.artifacts[x].content.logicalId, s.artifacts[y].content.version);
    assert SameSlot(s.artifacts[x], s.artifacts[y]);
  }

  // ---------------------------------------------------------------- the service object

  class CritiqueResponseCommitter {
    const commits: ArtifactCommitService
    var requests: map<Id, Request>
    var results: map<Id, Outcome>

    function View(): Responses
      reads this, commits
    {
      Responses(commits.View(), requests, results)
    }

    constructor (service: ArtifactCommitService)
      ensures commits == service && requests == map[] && results == map[]
    {
      commits, requests, results := service, map[], map[];
    }

    /** Looks up everything the response names; `required` is visited in any order. */
    method CheckRequired(c: ResponseCommand) returns (r: Check)
      ensures r == CheckResponse(commits.View(), c.(response := c.response.(revision := None)))
    {
      var s := commits.View();
      var required := Required(c.response);
      if exists id | id in required :: SnapshotContent(c.context.visible, id).None? { return Refuse(Unauthorized); }
      var todo := required;
      while todo != {}
        invariant todo <= required
        invariant forall id | id in required && id !in todo :: Current(s, c.context, id)
        decreases todo
      {
        var id :| id in todo;
        if !Current(s, c.context, id) { return Refuse(ReferenceInvalid); }
        todo := todo - {id};
      }
      return CheckHeads(s, c.(response := c.response.(revision := None)));
    }

    method CheckRevisionReferences(c: ResponseCommand, revision: Proposal) returns (r: Check)
      requires c.response.target in commits.artifacts
      ensures r == CheckRevision(commits.View(), c, revision)
    {
      var s := commits.View();
      if !PayloadFits(revision) { return Refuse(BadPayload); }
      var refs := References(revision);
      var i := 0;
      while i < |refs|
        invariant 0 <= i <= |refs|
        invariant forall k | 0 <= k < i :: RevisionReferenceOk(s, c, refs[k])
      {
        if !RevisionReferenceOk(s, c, refs[i]) { return Refuse(ReferenceInvalid); }
        i := i + 1;
      }
      return Need(revision.kind == s.artifacts[c.response.target].content.kind, NotSameLineage);
    }

    method Preflight(c: ResponseCommand) returns (r: Check)
      ensures r == CheckResponse(commits.View(), c)
    {
      hide CheckHeads, CheckRevision, Current;
      RevisionIsSeparate(commits.View(), c);
      r := CheckRequired(c);
      if r.Refuse? || c.response.revision.None? { return; }
      CheckedHeads(commits.View(), c.(response := c.response.(revision := None)));
      r := CheckRevisionReferences(c, c.response.revision.value);
    }

    /** The request row comes first and the result row last; an error is rolled back by the caller's transaction. */
    method Commit(c: ResponseCommand) returns (r: Result<Outcome>)
      modifies this, commits
      ensures match CommitResponse(old(View()), c)
              case Ok(done) => r == Ok(done.1) && View() == done.0
              case Err(e) => r == Err(e)
    {
      hide CheckResponse, Revise, CritiqueWrite, TargetWrite, RequestOf, ResultOf, ResponseEvent, EffectsPresent,
           Append;
      if !WellFormed(c) { return Err(MalformedCommand); }
      if c.Id() in requests || c.Id() in results {
        if c.Id() in requests && requests[c.Id()] == RequestOf(c)
           && c.Id() in results && results[c.Id()] == ResultOf(c) && EffectsPresent(commits.View(), results[c.Id()]) {
          return Ok(results[c.Id()]);
        }
        return Err(PriorCommitConflict);
      }
      var checked := Preflight(c);
      :- checked;
      CheckedHeads(commits.View(), c);
      var critique, target := commits.artifacts[c.response.critique], commits.artifacts[c.response.target];
      requests := requests[c.Id() := RequestOf(c)];
      var _ :- commits.Revise(CritiqueWrite(c, critique), ResponseId(c, CritiqueSupersedesRole), CRITIQUE_REASON);
      if c.response.revision.Some? {
        var _ :- commits.Revise(TargetWrite(c, target, c.response.revision.value),
                                ResponseId(c, TargetSupersedesRole), TARGET_REASON);
      }
      var appended :- Append(commits.ledger, ResponseEvent(c));
      commits.ledger := appended.0;
      results := results[c.Id() := ResultOf(c)];
      return Ok(ResultOf(c));
    }
  }

  /** Checking a response is checking it without its revision, and then the revision. */
  lemma RevisionIsSeparate(s: State, c: ResponseCommand)
    ensures var plain := CheckResponse(s, c.(response := c.response.(revision := None)));
            && (plain.Refuse? || c.response.revision.None? ==> CheckResponse(s, c) == plain)
            && (plain.Pass? && c.response.revision.Some? ==>
                  c.response.target in s.artifacts
                  && CheckResponse(s, c) == CheckRevision(s, c, c.response.revision.value))
  {
    var d := c.(response := c.response.(revision := None));
    assert Required(d.response) == Required(c.response);
    if CheckResponse(s, d).Pass? { CheckedHeads(s, d); }
  }
}
