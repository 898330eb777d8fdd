/** Values shared by the reasoning-artifact services: identities, artifacts, graph rows, commands and
    ledger events of one tenant session. */
module Records {
  import opened Options

  /** The reasons for which a service call raises; the caller then rolls its transaction back. */
  datatype Error =
    | NotInitial | NotActive | NotARevision | BlankText | EdgeIdsMismatch | SupersedesIsDerived
    | NoProjection | NoPredecessor | NotSameLineage | WarrantsInvalid | NoArtifact
    | DuplicateKey | BrokenChain | IllegalLifecycle | IllegalEdge | LedgerConflict
    | MalformedCommand | BadPayload | BadAssignment | Unauthorized | ReferenceInvalid | PriorCommitConflict
    | Stale | NotOwner | DispatchMismatch

  datatype Result<+T> = Ok(value: T) | Err(error: Error) {
    predicate IsFailure() { Err? }
    function PropagateFailure<U>(): Result<U> requires Err? { Err(error) }
    function Extract(): T requires Ok? { value }
  }

  /** A guard of a service: it passes, or the service raises. */
  datatype Check = Pass | Refuse(error: Error) {
    predicate IsFailure() { Refuse? }
    function PropagateFailure<U>(): Result<U> requires Refuse? { Err(error) }
  }

  function Need(condition: bool, error: Error): Check {
    if condition then Pass else Refuse(error)
  }

  datatype TurnRole = ArtifactRole | NodeRole | EventRole | RelationshipEdgeRole | TurnEventRole
  datatype ResponseRole =
    | CritiqueRevisionRole | CritiqueNodeRole | CritiqueSupersedesRole | CritiqueAttacksRole | CritiqueEventRole
    | TargetRevisionRole | TargetNodeRole | TargetSupersedesRole | TargetRelationshipRole | TargetEventRole
    | ResponseEventRole

  /** A UUID. `Given` is an identity allocated by a caller; the two other constructors are the version-5
      identities derived from a turn and from a response, whose name strings never coincide. */
  datatype Id =
    | Given(n: nat)
    | OfTurn(turn: Id, index: nat, turnRole: TurnRole, ordinal: nat)
    | OfResponse(response: Id, responseRole: ResponseRole, ordinal: nat)

  datatype Kind =
    | Claim | Fact | Assumption | Inference | Proposition | Evidence | Uncertainty | Risk | Impact
    | Objective | Constraint | Alternative | Position | Critique

  datatype Status = ACTIVE | SUPERSEDED | WITHDRAWN

  datatype EdgeType =
    | SUPPORTS | OPPOSES | CONTRADICTS | DERIVED_FROM | BASED_ON_ASSUMPTION | FORMALIZES | QUANTIFIES
    | IMPACTS | CONSTRAINS | VIOLATES | SATISFIES | INFEASIBLE_UNKNOWN | ATTACKS | RESPONDS_TO
    | SUPERSEDES | ADVOCATES

  datatype ActorClass = HUMAN | AGENT | SERVICE | POLICY
  datatype Actor = Actor(cls: ActorClass, id: Id)
  datatype Resolution = OPEN | RESOLVED | UNRESOLVED | DISPUTED
  datatype Disposition =
    | ACCEPT | PARTIALLY_ACCEPT | REJECT_WITH_JUSTIFICATION | REVISE | REQUEST_EVIDENCE
    | REQUEST_SIMULATION | ABSTAIN

  /** A reference inside a payload and the kinds its target may have; no kinds means any kind. */
  datatype Reference = Reference(target: Id, kinds: set<Kind>)

  /** Payload text is opaque; what the services read of it is kept. */
  datatype Payload =
    | CritiquePayload(target: Id, resolution: Resolution, text: nat)
    | OtherPayload(references: seq<Reference>, text: nat)

  datatype Relationship = Relationship(edgeType: EdgeType, target: Id)

  /** The immutable part of an artifact: exactly the pre-image of its content hash, so that two artifacts
      have the same hash precisely when their contents are equal. */
  datatype Content = Content(
    logicalId: Id, kind: Kind, version: nat, supersedes: Option<Id>, owner: Actor, round: nat,
    payload: Payload, parents: seq<Relationship>, confidence: Confidence, metadata: Metadata, provenance: nat)

  datatype Confidence = NoConfidence | Confidence(basis: seq<Id>, text: nat)

  datatype Metadata = Metadata(
    attribution: Option<Attribution>, evidence: Option<nat>, response: Option<(Id, Disposition)>, other: nat)

  datatype Artifact = Artifact(id: Id, content: Content, status: Status, updatedAt: int)

  datatype Node = Node(id: Id, ref: Id, kind: Kind, logicalId: Id, version: nat, order: nat)
  datatype Edge = Edge(id: Id, from: Id, to: Id, edgeType: EdgeType, actor: Actor)

  /** An artifact as a turn saw it; `content` stands for the content hash of the snapshot. */
  datatype Snapshot = Snapshot(id: Id, content: Content)

  datatype RoleKind = Critic | DomainExpert | OtherRole
  datatype Phase = CritiquePhase | RevisePhase | OtherPhase

  datatype Context = Context(
    turn: Id, correlation: Id, causation: Id, agent: Id, agentVersion: nat, roleKind: RoleKind, phase: Phase,
    round: nat, sealed: bool, visible: seq<Snapshot>, other: nat)

  datatype Proposal = Proposal(kind: Kind, payload: Payload, evidence: Option<nat>, confidence: Confidence)

  /** What an agent answers to a critique of one of its artifacts. */
  datatype Response = Response(
    id: Id, critique: Id, critiqueVersion: nat, target: Id, targetVersion: nat, disposition: Disposition,
    warrants: set<Id>, revision: Option<Proposal>, text: nat)

  /** What a turn produced: a bundle of new artifacts or one critique response. */
  datatype Output = Bundle(proposals: seq<Proposal>, requests: nat, limits: nat) | Answer(answer: Response)

  /** Attribution carries the hashes of the whole context and of the whole output, next to provider, model and
      accounting data (`execution`) and the commit time. */
  datatype Attribution = Attribution(context: Context, output: Output, execution: nat, committedAt: int)

  datatype Body =
    | ArtifactCommitted(artifact: Id, kind: Kind, logicalId: Id, version: nat)
    | ArtifactRevised(artifact: Id, kind: Kind, logicalId: Id, supersedes: Id, version: nat, reason: string)
    | ArtifactWithdrawn(artifact: Id, kind: Kind, logicalId: Id, version: nat, reason: string, warrants: seq<Id>)
    | TurnCompleted(turn: Id, artifacts: seq<Id>)
    | CritiqueResponded(response: Id, critiqueRevision: Id, targetRevision: Option<Id>, resolution: Resolution)
    | TurnTimedOut(turn: Id, agent: Id, agentVersion: nat, phase: Phase, targets: seq<Id>)
    | Foreign(eventType: nat, data: nat)

  datatype EventContext = EventContext(
    event: Id, correlation: Id, causation: Option<Id>, actor: Actor, recordedAt: int)

  datatype Event = Event(
    context: EventContext, round: nat, body: Body, attribution: Option<Attribution>, evidence: Option<nat>)
  {
    function Id(): Id { context.event }
  }
}
