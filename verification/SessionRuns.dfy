/** One session over time: any interleaving of artifact operations, turn commits, critique responses and other
    ledger appends, each in a transaction of its own. */
module SessionRuns {
  import opened Options
  import opened Records
  import Store = ArtifactStore
  import opened StoreInvariants
  import opened ArtifactService
  import opened ProposalCommit
  import opened CritiqueResponse

  datatype SessionOp =
    | ArtifactOp(op: Op)
    | TurnOp(turn: TurnCommit, assignment: Option<Assignment>)
    | ResponseOp(response: ResponseCommand)
    | NoteOp(event: Event)

  const START := Responses(Store.EMPTY, map[], map[])

  function After(s: Responses, op: SessionOp): Responses {
    match op
    case ArtifactOp(o) => s.(store := ArtifactService.Step(s.store, o))
    case TurnOp(c, a) => if CommitTurn(s.store, c, a).Ok? then s.(store := CommitTurn(s.store, c, a).value.0) else s
    case ResponseOp(c) => if CommitResponse(s, c).Ok? then CommitResponse(s, c).value.0 else s
    case NoteOp(e) =>
      if Store.Append(s.store.ledger, e).Ok?
      then s.(store := s.store.(ledger := Store.Append(s.store.ledger, e).value.0)) else s
  }

  function History(ops: seq<SessionOp>): Responses {
    if ops == [] then START else After(History(ops[..|ops| - 1]), ops[|ops| - 1])
  }

  ghost predicate OwnIds(w: Store.Write) { forall id | id in WriteIds(w) :: !id.OfTurn? }

  /** Identities derived from a turn are allocated by the turn commit alone. */
  ghost predicate Allowed(op: SessionOp) {
    match op
    case ArtifactOp(CommitOp(w)) => OwnIds(w)
    case ArtifactOp(ReviseOp(w, edge, _)) => OwnIds(w) && !edge.OfTurn?
    case ArtifactOp(WithdrawOp(_, _, _, context)) => !context.event.OfTurn?
    case NoteOp(e) => (e.body.Foreign? || e.body.TurnTimedOut?) && !e.Id().OfTurn?
    case _ => true
  }

  ghost predicate Sound(s: Responses) { Inv(s.store) && AllOrNothing(s.store) }

  lemma StartIsSound()
    ensures Sound(START)
  {
    EmptyInv();
  }

  lemma ArtifactOpIds(s: Store.State, op: Op, id: Id)
    requires Allowed(ArtifactOp(op)) && id in Ids(ArtifactService.Step(s, op)) && id.OfTurn?
    ensures id in Ids(s)
  {
    hide Store.Commit, Store.Revise, Store.Withdraw;
    if Apply(s, op).Ok? {
      match op {
        case CommitOp(w) => CommitIds(s, w);
        case ReviseOp(w, edge, reason) => ReviseRows(s, w, edge, reason);
        case WithdrawOp(x, reason, warrants, context) => WithdrawIds(s, x, reason, warrants, context);
      }
    }
  }

  lemma WithdrawIds(s: Store.State, id: Id, reason: string, warrants: seq<Id>, context: EventContext)
    requires Store.Withdraw(s, id, reason, warrants, context).Ok?
    ensures Ids(Store.Withdraw(s, id, reason, warrants, context).value.0) <= Ids(s) + {context.event}
  {
    WithdrawIsComposed(s, id, reason, warrants, context);
  }

  lemma ArtifactOpKeeps(s: Responses, op: Op)
    requires Sound(s) && Allowed(ArtifactOp(op))
    ensures Sound(After(s, ArtifactOp(op))) && ResponsesGrow(s, After(s, ArtifactOp(op)))
  {
    hide Inv, AllOrNothing, Grows, ArtifactService.Step, Allowed;
    StepKeepsInv(s.store, op);
    StepGrows(s.store, op);
    forall id | id in Ids(ArtifactService.Step(s.store, op)) && id.OfTurn? ensures id in Ids(s.store) {
      ArtifactOpIds(s.store, op, id);
    }
    ForeignKeepsAllOrNothing(s.store, ArtifactService.Step(s.store, op));
  }

  lemma NoteKeeps(s: Responses, e: Event)
    requires Sound(s) && Allowed(NoteOp(e))
    ensures Sound(After(s, NoteOp(e))) && ResponsesGrow(s, After(s, NoteOp(e)))
  {
    hide Inv, AllOrNothing, Grows;
    GrowsReflexive(s.store);
    if Store.Append(s.store.ledger, e).Ok? {
      AppendKeepsInv(s.store, e);
      AppendOnlyGrows(s.store, e);
      ForeignKeepsAllOrNothing(s.store, After(s, NoteOp(e)).store);
    }
  }

  lemma ResponseKeeps(s: Responses, c: ResponseCommand)
    requires Sound(s)
    ensures Sound(After(s, ResponseOp(c))) && ResponsesGrow(s, After(s, ResponseOp(c)))
  {
    hide Inv, AllOrNothing, Grows, CheckResponse, WriteResponse, EffectsPresent, WellFormed;
    GrowsReflexive(s.store);
    if CommitResponse(s, c).Ok? {
      CommitResponseKeeps(s, c);
      var s' := After(s, ResponseOp(c));
      forall id | id in Ids(s'.store) && id.OfTurn? ensures id in Ids(s.store) {
        if c.Id() !in s.requests && c.Id() !in s.results { FirstResponseIds(s.store, c, id); }
      }
      ForeignKeepsAllOrNothing(s.store, s'.store);
    }
  }

  lemma AfterKeeps(s: Responses, op: SessionOp)
    requires Sound(s) && Allowed(op)
    ensures Sound(After(s, op)) && ResponsesGrow(s, After(s, op))
  {
    match op {
      case ArtifactOp(o) => ArtifactOpKeeps(s, o);
      case NoteOp(e) => NoteKeeps(s, e);
      case ResponseOp(c) => ResponseKeeps(s, c);
      case TurnOp(c, a) =>
        hide Inv, AllOrNothing, Grows, CommitTurn;
        GrowsReflexive(s.store);
        if CommitTurn(s.store, c, a).Ok? { CommitTurnKeeps(s.store, c, a); }
    }
  }

  ghost predicate AllAllowed(ops: seq<SessionOp>) { forall i | 0 <= i < |ops| :: Allowed(ops[i]) }

  /** In every reachable state lineages are linear, the graph is acyclic, the ledger rebuilds the artifacts, and every
      turn has left either no trace at all or all rows of one command. */
  lemma {:induction false} HistoryIsSound(ops: seq<SessionOp>)
    requires AllAllowed(ops)
    ensures Sound(History(ops))
  {
    hide Sound, Allowed, After;
    if ops == [] {
      StartIsSound();
    } else {
      HistoryIsSound(ops[..|ops| - 1]);
      AfterKeeps(History(ops[..|ops| - 1]), ops[|ops| - 1]);
    }
  }

  /** Spelled out for one turn: no row carries an identity derived from it, or a single command accounts for all such
      identities and every artifact, node, edge and event of that command, and its completion event, is there. */
  lemma TurnsAreWhole(ops: seq<SessionOp>, turn: Id) returns (c: Option<TurnCommit>)
    requires AllAllowed(ops)
    ensures c.None? ==> forall id | id in Ids(History(ops).store) :: !From(turn, id)
    ensures c.Some? ==>
              && c.value.context.turn == turn && TurnStored(History(ops).store, c.value)
              && forall id | id in Ids(History(ops).store) && From(turn, id) :: Owns(c.value, id)
  {
    hide History, Allowed, Owns, TurnStored;
    HistoryIsSound(ops);
    if Traceless(History(ops).store, turn) { return None; }
    var d: TurnCommit :| d.context.turn == turn && Whole(History(ops).store, d);
    return Some(d);
  }

  lemma ResponsesGrowTransitive(s: Responses, t: Responses, u: Responses)
    requires ResponsesGrow(s, t) && ResponsesGrow(t, u)
    ensures ResponsesGrow(s, u)
  {
    hide Grows;
    GrowsTransitive(s.store, t.store, u.store);
  }

  /** From any point of a run to any later point, rows are only added. */
  lemma {:induction false} HistoryGrows(ops: seq<SessionOp>, i: nat)
    requires AllAllowed(ops) && i <= |ops|
    ensures ResponsesGrow(History(ops[..i]), History(ops))
    decreases |ops|
  {
    hide Sound, Allowed, After, Grows;
    if i == |ops| {
      assert ops[..i] == ops;
      GrowsReflexive(History(ops).store);
    } else {
      var n := |ops| - 1;
      HistoryGrows(ops[..n], i);
      assert ops[..n][..i] == ops[..i];
      HistoryIsSound(ops[..n]);
      AfterKeeps(History(ops[..n]), ops[n]);
      ResponsesGrowTransitive(History(ops[..i]), History(ops[..n]), History(ops));
    }
  }

  lemma HistoryNext(ops: seq<SessionOp>, i: nat)
    requires i < |ops|
    ensures History(ops[..i + 1]) == After(History(ops[..i]), ops[i])
  {
    assert ops[..i + 1][..i] == ops[..i];
  }

  /** A turn accepted at step `i` of a run: repeating its command after the run changes nothing and returns the same
      artifacts and events, and no other command of that turn is accepted any more. */
  lemma TurnsAreIdempotent(ops: seq<SessionOp>, i: nat, d: TurnCommit, b: Option<Assignment>)
    requires AllAllowed(ops) && i < |ops| && ops[i].TurnOp?
    requires CommitTurn(History(ops[..i]).store, ops[i].turn, ops[i].assignment).Ok?
    ensures var c, a, end := ops[i].turn, ops[i].assignment, History(ops).store;
            && CommitTurn(end, c, a).Ok? && CommitTurn(end, c, a).value.0 == end
            && var first, again := CommitTurn(History(ops[..i]).store, c, a).value.1, CommitTurn(end, c, a).value.1;
            && |again| == |first|
            && (forall k | 0 <= k < |first| ::
                  again[k].artifact.id == first[k].artifact.id && again[k].event == first[k].event)
            && (d.context.turn == c.context.turn && CommitTurn(end, d, b).Ok? ==> d == c)
  {
    hide CommitTurn, Inv, AllOrNothing, Grows, Allowed;
    var c, a := ops[i].turn, ops[i].assignment;
    assert AllAllowed(ops[..i]);
    HistoryIsSound(ops[..i]);
    HistoryIsSound(ops);
    HistoryNext(ops, i);
    HistoryGrows(ops, i + 1);
    var s, end := History(ops[..i]).store, History(ops).store;
    RepeatedCommand(s, c, a, end);
    if d.context.turn == c.context.turn && CommitTurn(end, d, b).Ok? {
      OneBundlePerTurn(s, c, a, end, d, b);
    }
  }

  /** A response accepted at step `i` of a run: repeating it after the run returns the stored result and changes
      nothing, and any command under the same response identity either is that response or is refused. */
  lemma ResponsesAreIdempotent(ops: seq<SessionOp>, i: nat, d: ResponseCommand)
    requires AllAllowed(ops) && i < |ops| && ops[i].ResponseOp?
    requires CommitResponse(History(ops[..i]), ops[i].response).Ok?
    ensures var c, end := ops[i].response, History(ops);
            && CommitResponse(end, c) == Ok((end, CommitResponse(History(ops[..i]), c).value.1))
            && (d.Id() == c.Id() ==> After(end, ResponseOp(d)) == end)
            && (d.Id() == c.Id() && CommitResponse(end, d).Ok? ==> d == c)
  {
    hide CommitResponse, Inv, AllOrNothing, ResponsesGrow, Allowed, History;
    var c := ops[i].response;
    assert AllAllowed(ops[..i]);
    HistoryIsSound(ops[..i]);
    HistoryNext(ops, i);
    HistoryGrows(ops, i + 1);
    RepeatedResponse(History(ops[..i]), c, History(ops));
    if d.Id() == c.Id() && CommitResponse(History(ops), d).Ok? {
      AtMostOnce(History(ops[..i]), c, History(ops), d);
    }
  }

  predicate SameActiveLineage(s: Store.State, x: Id, y: Id) {
    && x in s.artifacts && y in s.artifacts && s.artifacts[x].status.ACTIVE? && s.artifacts[y].status.ACTIVE?
    && s.artifacts[x].content.logicalId == s.artifacts[y].content.logicalId
  }

  /** A response that takes effect at step `i` advances the critique's lineage by one version, its target's by one
      more only for REVISE, and no other; afterwards each lineage has at most one ACTIVE version. */
  lemma ResponseAdvancesLineages(ops: seq<SessionOp>, c: ResponseCommand, logical: Id, x: Id, y: Id)
    requires AllAllowed(ops) && CommitResponse(History(ops), c).Ok?
    ensures var s, t, r := History(ops).store, CommitResponse(History(ops), c).value.0.store, c.response;
            && (c.Id() !in History(ops).requests && c.Id() !in History(ops).results ==>
                  && r.critique in s.artifacts && r.target in s.artifacts
                  && |Lineage(t.artifacts, logical)|
                     == |Lineage(s.artifacts, logical)|
                        + Advance(logical == s.artifacts[r.critique].content.logicalId)
                        + Advance(r.disposition.REVISE? && logical == s.artifacts[r.target].content.logicalId))
            && (c.Id() in History(ops).requests || c.Id() in History(ops).results ==> t == s)
            && (SameActiveLineage(t, x, y) ==> x == y)
  {
    hide Inv, AllOrNothing, Grows, CheckResponse, WriteResponse, EffectsPresent, Allowed;
    HistoryIsSound(ops);
    var s := History(ops);
    CommitResponseKeeps(s, c);
    var t := CommitResponse(s, c).value.0.store;
    if c.Id() !in s.requests && c.Id() !in s.results { FirstResponse(s.store, c, logical); }
    if SameActiveLineage(t, x, y) { ActiveIsHead(t, x, y); }
  }
}
