/** The artifact commit service as an object over its three ports, the transaction of its caller, and what holds in
    every state that a run of its operations reaches. */
module ArtifactService {
  import opened Options
  import opened Records
  import opened ArtifactStore
  import opened StoreInvariants

  // ---------------------------------------------------------------- runs

  datatype Op =
    | CommitOp(write: Write)
    | ReviseOp(write: Write, edge: Id, reason: string)
    | WithdrawOp(artifact: Id, reason: string, warrants: seq<Id>, context: EventContext)

  function Apply(s: State, op: Op): Result<(State, WriteResult)> {
    match op
    case CommitOp(w) => Commit(s, w)
    case ReviseOp(w, edge, reason) => Revise(s, w, edge, reason)
    case WithdrawOp(id, reason, warrants, context) => Withdraw(s, id, reason, warrants, context)
  }

  /** One operation in a transaction of its own: a raised error rolls everything back. */
  function Step(s: State, op: Op): State {
    if Apply(s, op).Ok? then Apply(s, op).value.0 else s
  }

  function Run(ops: seq<Op>): State {
    if ops == [] then EMPTY else Step(Run(ops[..|ops| - 1]), ops[|ops| - 1])
  }

  lemma StepKeepsInv(s: State, op: Op)
    requires Inv(s)
    ensures Inv(Step(s, op))
  {
    if Apply(s, op).Ok? {
      match op
      case CommitOp(w) => CommitKeepsInv(s, w);
      case ReviseOp(w, edge, reason) => ReviseKeepsInv(s, w, edge, reason);
      case WithdrawOp(id, reason, warrants, context) => WithdrawKeepsInv(s, id, reason, warrants, context);
    }
  }

  lemma {:induction false} RunKeepsInv(ops: seq<Op>)
    ensures Inv(Run(ops))
  {
    if ops == [] {
      EmptyInv();
    } else {
      RunKeepsInv(ops[..|ops| - 1]);
      StepKeepsInv(Run(ops[..|ops| - 1]), ops[|ops| - 1]);
    }
  }

  /** In every reachable state a logical artifact has one row for each of the versions 1..n and no other, version v
      supersedes version v-1, all below n are SUPERSEDED, and n is ACTIVE or WITHDRAWN. */
  lemma ReachableLineages(ops: seq<Op>, logical: Id) returns (n: nat)
    ensures var arts := Run(ops).artifacts;
            && (forall v: nat :: HasVersion(arts, logical, v) <==> 1 <= v <= n)
            && (forall x, y | x in arts && y in arts && SameSlot(arts[x], arts[y]) :: x == y)
            && (forall id | id in arts && arts[id].content.logicalId == logical ::
                  && (arts[id].status.SUPERSEDED? <==> arts[id].content.version < n)
                  && (arts[id].content.version == 1 <==> arts[id].content.supersedes.None?)
                  && (arts[id].content.version > 1 ==>
                        arts[id].content.supersedes.value in arts
                        && Follows(arts[arts[id].content.supersedes.value], arts[id].content)))
  {
    RunKeepsInv(ops);
    n := LineageIsLinear(Run(ops).artifacts, logical);
    var arts := Run(ops).artifacts;
    forall id | id in arts ensures RowOk(arts, id) {
    }
  }

  /** In every reachable state the reasoning graph has no cycle, and its SUPERSEDES edges are the supersession links. */
  lemma ReachableGraph(ops: seq<Op>, path: seq<Id>, later: Id, earlier: Id)
    ensures var s := Run(ops);
            && (Walk(s.graph, path) && path != [] ==>
                  s.graph.edges[path[0]].from != s.graph.edges[path[|path| - 1]].to)
            && (later in s.artifacts && earlier in s.artifacts ==>
                  (HasSupersedesEdge(s.graph, later, earlier)
                   <==> s.artifacts[later].content.supersedes == Some(earlier)))
  {
    RunKeepsInv(ops);
    var s := Run(ops);
    if Walk(s.graph, path) && path != [] {
      GraphIsAcyclic(Contents(s.artifacts), s.graph, path);
    }
    if later in s.artifacts && earlier in s.artifacts {
      SupersedesMirrorsChains(Contents(s.artifacts), s.graph, later, earlier);
    }
  }

  /** In every reachable state, folding the ledger from empty gives back each artifact's identity, kind, version,
      supersession link and lifecycle status. */
  lemma ReachableLedger(ops: seq<Op>)
    ensures Rebuild(Run(ops).ledger.events) == Summaries(Run(ops).artifacts)
  {
    RunKeepsInv(ops);
  }

  // ---------------------------------------------------------------- what is never undone

  ghost predicate GraphGrows(g: GraphRows, g': GraphRows) {
    && (forall n | n in g.nodes :: n in g'.nodes && g'.nodes[n] == g.nodes[n])
    && (forall a | a in g.nodeFor :: a in g'.nodeFor && g'.nodeFor[a] == g.nodeFor[a])
    && (forall k | k in g.edges :: k in g'.edges && g'.edges[k] == g.edges[k])
  }

  ghost predicate LedgerGrows(l: Ledger, l': Ledger) {
    l.events <= l'.events && forall id | id in l.byId :: id in l'.byId && l'.byId[id] == l.byId[id]
  }

  ghost predicate ArtifactsGrow(arts: map<Id, Artifact>, arts': map<Id, Artifact>) {
    forall id | id in arts :: id in arts' && arts'[id].id == arts[id].id && arts'[id].content == arts[id].content
                              && (arts[id].status.ACTIVE? || arts'[id].status == arts[id].status)
  }

  /** Append-only: rows stay, contents stay, a lifecycle only leaves ACTIVE, events stay in place. */
  ghost predicate Grows(s: State, s': State) {
    && ArtifactsGrow(s.artifacts, s'.artifacts) && GraphGrows(s.graph, s'.graph) && LedgerGrows(s.ledger, s'.ledger)
  }

  lemma GrowsTransitive(s: State, t: State, u: State)
    requires Grows(s, t) && Grows(t, u)
    ensures Grows(s, u)
  {
    assert ArtifactsGrow(s.artifacts, u.artifacts);
    assert GraphGrows(s.graph, u.graph);
    assert LedgerGrows(s.ledger, u.ledger);
  }

  lemma AppendGrows(l: Ledger, e: Event)
    requires Append(l, e).Ok?
    ensures LedgerGrows(l, Append(l, e).value.0)
  {
  }

  lemma {:induction false} RelationshipsGrow(
    g: GraphRows, from: Id, parents: seq<Relationship>, edgeIds: seq<Id>, targets: seq<Id>, actor: Actor)
    requires |parents| == |edgeIds| == |targets|
    requires AddRelationships(g, from, parents, edgeIds, targets, actor).Ok?
    ensures GraphGrows(g, AddRelationships(g, from, parents, edgeIds, targets, actor).value)
  {
    if parents != [] {
      var n := |parents| - 1;
      RelationshipsGrow(g, from, parents[..n], edgeIds[..n], targets[..n], actor);
    }
  }

  lemma ProjectGrows(g: GraphRows, w: Write)
    requires Project(g, w).Ok?
    ensures GraphGrows(g, Project(g, w).value)
  {
    var a := w.artifact;
    var targets := RelationshipTargets(g, a, w.relationshipEdges).value;
    var g1 := AddNode(g, w.node, a.id, a.content, w.title).value;
    TargetsLength(g, a.content.parents);
    RelationshipsGrow(g1, w.node, a.content.parents, w.relationshipEdges, targets, w.context.actor);
  }

  lemma CommitGrows(s: State, w: Write)
    requires Commit(s, w).Ok?
    ensures Grows(s, Commit(s, w).value.0)
  {
    CommitIsComposed(s, w);
    ProjectGrows(s.graph, w);
    AppendGrows(s.ledger, ArtifactEvent(w.artifact, w.context, CommittedBody(w.artifact)));
  }

  lemma ReviseGrows(s: State, w: Write, edge: Id, reason: string)
    requires Revise(s, w, edge, reason).Ok?
    ensures Grows(s, Revise(s, w, edge, reason).value.0)
  {
    ReviseIsComposed(s, w, edge, reason);
    var a := w.artifact;
    ProjectGrows(s.graph, w);
    SupersedingRows(s.artifacts, a, w.context.recordedAt);
    var s' := Revise(s, w, edge, reason).value.0;
    assert GraphGrows(Project(s.graph, w).value, s'.graph);
    assert GraphGrows(s.graph, s'.graph);
    AppendGrows(s.ledger, ArtifactEvent(a, w.context, RevisedBody(a, a.content.supersedes.value, reason)));
  }

  lemma WithdrawGrows(s: State, id: Id, reason: string, warrants: seq<Id>, context: EventContext)
    requires Withdraw(s, id, reason, warrants, context).Ok?
    ensures Grows(s, Withdraw(s, id, reason, warrants, context).value.0)
  {
    WithdrawIsComposed(s, id, reason, warrants, context);
    var (s', r) := Withdraw(s, id, reason, warrants, context).value;
    assert ArtifactsGrow(s.artifacts, s'.artifacts);
    AppendGrows(s.ledger, ArtifactEvent(r.artifact, context, WithdrawnBody(s.artifacts[id], reason, warrants)));
  }

  /** No operation, completed or rolled back, removes or rewrites anything but a lifecycle. */
  lemma StepGrows(s: State, op: Op)
    ensures Grows(s, Step(s, op))
  {
    if Apply(s, op).Ok? {
      match op
      case CommitOp(w) => CommitGrows(s, w);
      case ReviseOp(w, edge, reason) => ReviseGrows(s, w, edge, reason);
      case WithdrawOp(id, reason, warrants, context) => WithdrawGrows(s, id, reason, warrants, context);
    }
  }

  // ---------------------------------------------------------------- the service object

  lemma {:induction false} TargetsFail(g: GraphRows, parents: seq<Relationship>, n: nat)
    requires n <= |parents| && Targets(g, parents[..n]).Err?
    ensures Targets(g, parents) == Err(Targets(g, parents[..n]).error)
    decreases |parents|
  {
    if n < |parents| {
      assert parents[..|parents| - 1][..n] == parents[..n];
      TargetsFail(g, parents[..|parents| - 1], n);
    } else {
      assert parents[..n] == parents;
    }
  }

  lemma {:induction false} AddRelationshipsFail(
    g: GraphRows, from: Id, parents: seq<Relationship>, edgeIds: seq<Id>, targets: seq<Id>, actor: Actor, n: nat)
    requires n <= |parents| == |edgeIds| == |targets|
    requires AddRelationships(g, from, parents[..n], edgeIds[..n], targets[..n], actor).Err?
    ensures AddRelationships(g, from, parents, edgeIds, targets, actor)
         == Err(AddRelationships(g, from, parents[..n], edgeIds[..n], targets[..n], actor).error)
    decreases |parents|
  {
    hide AddEdge;
    var m := |parents| - 1;
    if n <= m {
      assert parents[..m][..n] == parents[..n];
      assert edgeIds[..m][..n] == edgeIds[..n] && targets[..m][..n] == targets[..n];
      AddRelationshipsFail(g, from, parents[..m], edgeIds[..m], targets[..m], actor, n);
    } else {
      assert parents[..n] == parents && edgeIds[..n] == edgeIds && targets[..n] == targets;
    }
  }

  lemma AddRelationshipsNext(
    g: GraphRows, from: Id, parents: seq<Relationship>, edgeIds: seq<Id>, targets: seq<Id>, actor: Actor, i: nat)
    requires i < |parents| == |edgeIds| == |targets|
    requires AddRelationships(g, from, parents[..i], edgeIds[..i], targets[..i], actor).Ok?
    ensures AddRelationships(g, from, parents[..i + 1], edgeIds[..i + 1], targets[..i + 1], actor)
         == AddEdge(AddRelationships(g, from, parents[..i], edgeIds[..i], targets[..i], actor).value,
                    Edge(edgeIds[i], from, targets[i], parents[i].edgeType, actor))
  {
    assert parents[..i + 1][..i] == parents[..i] && edgeIds[..i + 1][..i] == edgeIds[..i]
        && targets[..i + 1][..i] == targets[..i];
  }

  class ArtifactCommitService {
    var artifacts: map<Id, Artifact>
    var graph: GraphRows
    var ledger: Ledger

    function View(): State
      reads this
    {
      State(artifacts, graph, ledger)
    }

    constructor ()
      ensures View() == EMPTY
    {
      artifacts := map[];
      graph := GraphRows(map[], map[], map[]);
      ledger := Ledger([], map[]);
    }

    method ResolveTargets(a: Artifact, edgeIds: seq<Id>) returns (r: Result<seq<Id>>)
      ensures r == RelationshipTargets(graph, a, edgeIds)
    {
      if |edgeIds| != |a.content.parents| { return Err(EdgeIdsMismatch); }
      var parents := a.content.parents;
      var targets := [];
      var i := 0;
      while i < |parents|
        invariant 0 <= i <= |parents|
        invariant Targets(graph, parents[..i]) == Ok(targets)
      {
        assert parents[..i + 1][..i] == parents[..i];
        var node := NodeForArtifact(graph, parents[i].target);
        if parents[i].edgeType.SUPERSEDES? || node.None? {
          TargetsFail(graph, parents, i + 1);
          return Err(if parents[i].edgeType.SUPERSEDES? then SupersedesIsDerived else NoProjection);
        }
        targets := targets + [node.value.id];
        i := i + 1;
      }
      assert parents[..i] == parents;
      return Ok(targets);
    }

    method PutRelationships(from: Id, parents: seq<Relationship>, edgeIds: seq<Id>, targets: seq<Id>, actor: Actor)
      returns (r: Result<()>)
      requires |parents| == |edgeIds| == |targets|
      modifies this`graph
      ensures match AddRelationships(old(graph), from, parents, edgeIds, targets, actor)
              case Ok(g) => r.Ok? && graph == g
              case Err(e) => r == Err(e)
    {
      ghost var g0 := graph;
      var i := 0;
      assert AddRelationships(g0, from, parents[..0], edgeIds[..0], targets[..0], actor) == Ok(graph);
      while i < |parents|
        invariant 0 <= i <= |parents|
        invariant AddRelationships(g0, from, parents[..i], edgeIds[..i], targets[..i], actor) == Ok(graph)
      {
        AddRelationshipsNext(g0, from, parents, edgeIds, targets, actor, i);
        var added := AddEdge(graph, Edge(edgeIds[i], from, targets[i], parents[i].edgeType, actor));
        if added.Err? {
          AddRelationshipsFail(g0, from, parents, edgeIds, targets, actor, i + 1);
          return Err(added.error);
        }
        graph := added.value;
        i := i + 1;
      }
      assert parents[..i] == parents && edgeIds[..i] == edgeIds && targets[..i] == targets;
      return Ok(());
    }

    method Commit(w: Write) returns (r: Result<WriteResult>)
      modifies this
      ensures match ArtifactStore.Commit(old(View()), w)
              case Ok(done) => r == Ok(done.1) && View() == done.0
              case Err(e) => r == Err(e)
    {
      var a := w.artifact;
      :- Need(a.content.version == 1 && a.content.supersedes.None?, NotInitial);
      :- Need(a.status.ACTIVE?, NotActive);
      var targets :- ResolveTargets(a, w.relationshipEdges);
      TargetsLength(graph, a.content.parents);
      artifacts :- Add(artifacts, a);
      graph :- AddNode(graph, w.node, a.id, a.content, w.title);
      var _ :- PutRelationships(w.node, a.content.parents, w.relationshipEdges, targets, w.context.actor);
      var appended :- Append(ledger, ArtifactEvent(a, w.context, CommittedBody(a)));
      ledger := appended.0;
      return Ok(WriteResult(a, appended.1));
    }

    method Revise(w: Write, supersedesEdge: Id, reason: string) returns (r: Result<WriteResult>)
      modifies this
      ensures match ArtifactStore.Revise(old(View()), w, supersedesEdge, reason)
              case Ok(done) => r == Ok(done.1) && View() == done.0
              case Err(e) => r == Err(e)
    {
      var a := w.artifact;
      :- Need(a.content.supersedes.Some? && a.content.version > 1, NotARevision);
      :- Need(a.status.ACTIVE?, NotActive);
      :- Need(!Blank(reason), BlankText);
      var p := a.content.supersedes.value;
      :- Need(p in artifacts, NoPredecessor);
      :- Need(artifacts[p].status.ACTIVE?, NotActive);
      :- Need(Follows(artifacts[p], a.content), NotSameLineage);
      var previousNode := NodeForArtifact(graph, p);
      :- Need(previousNode.Some?, NoProjection);
      var targets :- ResolveTargets(a, w.relationshipEdges);
      TargetsLength(graph, a.content.parents);
      artifacts :- Add(artifacts, a);
      artifacts :- SetLifecycle(artifacts, p, SUPERSEDED, w.context.recordedAt);
      graph :- AddNode(graph, w.node, a.id, a.content, w.title);
      var _ :- PutRelationships(w.node, a.content.parents, w.relationshipEdges, targets, w.context.actor);
      graph :- AddEdge(graph, Edge(supersedesEdge, w.node, previousNode.value.id, SUPERSEDES, w.context.actor));
      var appended :- Append(ledger, ArtifactEvent(a, w.context, RevisedBody(a, p, reason)));
      ledger := appended.0;
      return Ok(WriteResult(a, appended.1));
    }

    method Withdraw(id: Id, reason: string, warrants: seq<Id>, context: EventContext) returns (r: Result<WriteResult>)
      modifies this
      ensures match ArtifactStore.Withdraw(old(View()), id, reason, warrants, context)
              case Ok(done) => r == Ok(done.1) && View() == done.0
              case Err(e) => r == Err(e)
    {
      if Blank(reason) { return Err(BlankText); }
      :- Need(warrants != [], WarrantsInvalid);
      :- Need(forall i, j | 0 <= i < j < |warrants| :: warrants[i] != warrants[j], WarrantsInvalid);
      var i := 0;
      while i < |warrants|
        invariant 0 <= i <= |warrants|
        invariant forall j | 0 <= j < i :: NodeForArtifact(graph, warrants[j]).Some?
      {
        if NodeForArtifact(graph, warrants[i]).None? { return Err(NoProjection); }
        i := i + 1;
      }
      :- Need(id in artifacts, NoArtifact);
      var a := artifacts[id];
      :- Need(a.status.ACTIVE?, NotActive);
      artifacts :- SetLifecycle(artifacts, id, WITHDRAWN, context.recordedAt);
      var withdrawn := a.(status := WITHDRAWN, updatedAt := context.recordedAt);
      var appended :- Append(ledger, ArtifactEvent(withdrawn, context, WithdrawnBody(a, reason, warrants)));
      ledger := appended.0;
      return Ok(WriteResult(withdrawn, appended.1));
    }

    /** The transaction of the caller: what a failed operation had written is rolled back. */
    method Transact(op: Op) returns (r: Result<WriteResult>)
      requires Inv(View())
      modifies this
      ensures View() == Step(old(View()), op) && Inv(View())
      ensures r.Ok? <==> Apply(old(View()), op).Ok?
      ensures r.Ok? ==> r.value == Apply(old(View()), op).value.1
    {
      ghost var s0 := View();
      StepKeepsInv(s0, op);
      var before := (artifacts, graph, ledger);
      match op {
        case CommitOp(w) => r := Commit(w);
        case ReviseOp(w, edge, reason) => r := Revise(w, edge, reason);
        case WithdrawOp(id, reason, warrants, context) => r := Withdraw(id, reason, warrants, context);
      }
      if r.Err? {
        artifacts, graph, ledger := before.0, before.1, before.2;
      }
    }
  }
}
