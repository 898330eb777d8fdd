/** What a successful critique round leaves in the session: every context ends as exactly one commit or one timeout
    event. */
module RoundEffects {
  import opened Options
  import opened Records
  import Store = ArtifactStore
  import opened StoreInvariants
  import opened ArtifactService
  import opened ProposalCommit
  import opened CritiqueResponse
  import opened SessionRuns
  import opened CritiqueRound
  import opened Sorting

  // ---------------------------------------------------------------- the writes of a round are allowed

  /** Timeout events are allocated by the caller, so they are not derived from a turn. */
  ghost predicate ForeignTimeouts(c: RoundCommand) {
    && (forall i | 0 <= i < |c.critics| :: !c.critics[i].timeout.OfTurn?)
    && (forall i | 0 <= i < |c.peers| :: !c.peers[i].timeout.OfTurn?)
    && (forall i | 0 <= i < |c.responses| :: !c.responses[i].timeout.OfTurn?)
  }

  /** A write of a round: a turn, a response, or the event of a turn that timed out. */
  ghost predicate RoundWrite(op: SessionOp) {
    match op
    case TurnOp(_, _) => true
    case ResponseOp(_) => true
    case NoteOp(e) => e.body.TurnTimedOut? && !e.Id().OfTurn?
    case ArtifactOp(_) => false
  }

  ghost predicate RoundWrites(ops: seq<SessionOp>) { forall i | 0 <= i < |ops| :: RoundWrite(ops[i]) }

  lemma {:induction false} NotesAreWrites(ts: seq<ResponseTurn>, os: seq<TurnOutcome<ResponseWork>>, at: int)
    requires |ts| == |os| && forall i | 0 <= i < |ts| :: !ts[i].timeout.OfTurn?
    ensures RoundWrites(TimeoutNotes(ts, os, at))
  {
    if ts != [] { NotesAreWrites(ts[..|ts| - 1], os[..|ts| - 1], at); }
  }

  lemma CriticsAreWrites(ts: seq<CriticTurn>, os: seq<TurnOutcome<CriticWork>>, at: int)
    requires |ts| == |os| && forall i | 0 <= i < |ts| :: !ts[i].timeout.OfTurn?
    ensures RoundWrites(CriticOps(ts, os, at))
  {
  }

  lemma RoundOpsAreWrites(rank: Id -> nat, c: RoundCommand, o: Outcomes)
    requires |o.critics| == |c.critics| && |o.peers| == |c.peers| && |o.responses| == |c.responses|
    requires ForeignTimeouts(c)
    ensures RoundWrites(RoundOps(rank, c, o)) && AllAllowed(RoundOps(rank, c, o))
  {
    hide CriticOps, TimeoutNotes, ResponseCommands;
    CriticsAreWrites(c.critics, o.critics, c.committedAt);
    CriticsAreWrites(c.peers, o.peers, c.committedAt);
    NotesAreWrites(c.responses, o.responses, c.committedAt);
    assert RoundWrites(ResponseOps(rank, ResponseCommands(o.responses, c.committedAt)));
  }

  // ---------------------------------------------------------------- the traces of one write

  ghost predicate TimedOutTurn(e: Event, turn: Id) { e.body.TurnTimedOut? && e.body.turn == turn }

  /** The write appends the timeout event of the turn. */
  ghost predicate NotesTimeout(op: SessionOp, turn: Id) { op.NoteOp? && TimedOutTurn(op.event, turn) }

  /** The write commits the turn. */
  ghost predicate CommitsTurn(op: SessionOp, turn: Id) { op.TurnOp? && op.turn.context.turn == turn }

  /** Timeout events of a turn that `t` has and `s` has not. */
  ghost predicate NoNewTimeout(s: Responses, t: Responses, turn: Id) {
    forall id | id in t.store.ledger.byId && TimedOutTurn(t.store.ledger.byId[id], turn) :: id in s.store.ledger.byId
  }

  lemma AppendEvents(l: Store.Ledger, e: Event, id: Id)
    requires Store.Append(l, e).Ok? && id in Store.Append(l, e).value.0.byId
    ensures id in l.byId || Store.Append(l, e).value.0.byId[id] == e
  {
  }

  lemma {:induction false} WriteFirstEvents(s: Store.State, c: TurnCommit, n: nat, id: Id)
    requires n <= |c.proposals| && Inv(s) && WriteFirst(s, c, n).Ok?
    requires id in WriteFirst(s, c, n).value.0.ledger.byId
    ensures id in s.ledger.byId || !WriteFirst(s, c, n).value.0.ledger.byId[id].body.TurnTimedOut?
  {
    hide Store.Commit, Inv, Grows, ProposalStored;
    if n > 0 {
      WriteFirstEffect(s, c, n - 1);
      var s1 := WriteFirst(s, c, n - 1).value.0;
      CommitKeepsInv(s1, TurnWrite(c, n - 1));
      if id in s1.ledger.byId { WriteFirstEvents(s, c, n - 1, id); }
    }
  }

  lemma TurnEvents(s: Store.State, c: TurnCommit, a: Option<Assignment>, id: Id)
    requires Inv(s) && CommitTurn(s, c, a).Ok? && id in CommitTurn(s, c, a).value.0.ledger.byId
    ensures id in s.ledger.byId || !CommitTurn(s, c, a).value.0.ledger.byId[id].body.TurnTimedOut?
  {
    hide Inv, CommitTurn, AnyPrior, CritiqueContract, WriteFirst, Preflight, AllReferences, Store.Append;
    AcceptedGuards(s, c, a);
    if !AnyPrior(s, c) {
      WriteTurnWrites(s, c);
      var s1 := WriteFirst(s, c, |c.proposals|).value.0;
      AppendEvents(s1.ledger, CompletionEvent(c), id);
      if id in s1.ledger.byId {
        WriteFirstEvents(s, c, |c.proposals|, id);
        AppendKeepsEvent(s1.ledger, CompletionEvent(c), id);
      }
    }
  }

  lemma AppendKeepsEvent(l: Store.Ledger, e: Event, id: Id)
    requires Store.Append(l, e).Ok? && id in l.byId
    ensures id in Store.Append(l, e).value.0.byId && Store.Append(l, e).value.0.byId[id] == l.byId[id]
  {
  }

  lemma ReviseEvents(s: Store.State, w: Store.Write, edge: Id, reason: string, id: Id)
    requires Inv(s) && Store.Revise(s, w, edge, reason).Ok?
    requires id in Store.Revise(s, w, edge, reason).value.0.ledger.byId
    ensures id in s.ledger.byId || !Store.Revise(s, w, edge, reason).value.0.ledger.byId[id].body.TurnTimedOut?
    ensures id in s.ledger.byId ==>
              Store.Revise(s, w, edge, reason).value.0.ledger.byId[id] == s.ledger.byId[id]
  {
    hide Store.Revise, Inv;
    ReviseKeepsInv(s, w, edge, reason);
  }

  lemma ResponseEvents(s: Store.State, c: ResponseCommand, id: Id)
    requires Inv(s) && CheckResponse(s, c).Pass? && WriteResponse(s, c).Ok?
    requires id in WriteResponse(s, c).value.ledger.byId
    ensures id in s.ledger.byId || !WriteResponse(s, c).value.ledger.byId[id].body.TurnTimedOut?
  {
    hide Store.Revise, Inv, CheckResponse, References, TargetRevision, CritiqueRevision, Store.Append;
    ArtifactOfHead(s, c);
    var r := c.response;
    var critique, target := s.artifacts[r.critique], s.artifacts[r.target];
    var w := CritiqueWrite(c, critique);
    var s1 := ReviseCritique(s, c).value.0;
    RevisionEffect(s, w, ResponseId(c, CritiqueSupersedesRole), CRITIQUE_REASON);
    var s2 := ReviseTarget(s1, c, target).value;
    AppendEvents(s2.ledger, ResponseEvent(c), id);
    if id in s2.ledger.byId {
      AppendKeepsEvent(s2.ledger, ResponseEvent(c), id);
      if r.revision.Some? {
        ReviseEvents(s1, TargetWrite(c, target, r.revision.value), ResponseId(c, TargetSupersedesRole), TARGET_REASON,
                     id);
      }
      if id in s1.ledger.byId {
        ReviseEvents(s, w, ResponseId(c, CritiqueSupersedesRole), CRITIQUE_REASON, id);
      }
    }
  }

  /** Only the note of a timed-out turn appends a timeout event. */
  lemma PerformEvents(s: Responses, op: SessionOp, turn: Id)
    requires Sound(s) && RoundWrite(op) && Perform(s, op).Ok? && !NotesTimeout(op, turn)
    ensures NoNewTimeout(s, Perform(s, op).value, turn)
  {
    hide Inv, AllOrNothing, CommitTurn, CheckResponse, WriteResponse, EffectsPresent, WellFormed;
    var t := Perform(s, op).value;
    forall id | id in t.store.ledger.byId && TimedOutTurn(t.store.ledger.byId[id], turn)
      ensures id in s.store.ledger.byId
    {
      match op {
        case TurnOp(c, a) => TurnEvents(s.store, c, a, id);
        case NoteOp(e) => AppendEvents(s.store.ledger, e, id);
        case ResponseOp(c) =>
          if c.Id() !in s.requests && c.Id() !in s.results { ResponseEvents(s.store, c, id); }
      }
    }
  }

  /** Only the commit of a turn leaves identities derived from it. */
  lemma PerformTraces(s: Responses, op: SessionOp, turn: Id)
    requires Sound(s) && RoundWrite(op) && Perform(s, op).Ok? && !CommitsTurn(op, turn) && Traceless(s.store, turn)
    ensures Traceless(Perform(s, op).value.store, turn)
  {
    hide Inv, AllOrNothing, CommitTurn, CheckResponse, WriteResponse, EffectsPresent, WellFormed, AnyPrior, WriteTurn,
         CritiqueContract, Ids;
    var t := Perform(s, op).value;
    forall id | id in Ids(t.store) ensures !From(turn, id) {
      match op {
        case TurnOp(c, a) =>
          AcceptedGuards(s.store, c, a);
          if !AnyPrior(s.store, c) { WriteTurnIds(s.store, c, id); }
        case NoteOp(e) => NoteIds(s, e, id);
        case ResponseOp(c) =>
          if c.Id() !in s.requests && c.Id() !in s.results { FirstResponseIds(s.store, c, id); }
      }
    }
  }

  lemma NoteIds(s: Responses, e: Event, id: Id)
    requires Perform(s, NoteOp(e)).Ok? && id in Ids(Perform(s, NoteOp(e)).value.store)
    ensures id in Ids(s.store) || id == e.Id()
  {
  }

  // ---------------------------------------------------------------- the traces of all writes

  lemma NewTimeoutsChain(s: Responses, m: Responses, t: Responses, turn: Id)
    requires NoNewTimeout(s, m, turn) && NoNewTimeout(m, t, turn) && ResponsesGrow(m, t)
    ensures NoNewTimeout(s, t, turn)
  {
  }

  lemma {:induction false} PerformAllEvents(s: Responses, ops: seq<SessionOp>, turn: Id)
    requires Sound(s) && RoundWrites(ops) && AllAllowed(ops) && PerformAll(s, ops).Ok?
    requires forall i | 0 <= i < |ops| :: !NotesTimeout(ops[i], turn)
    ensures NoNewTimeout(s, PerformAll(s, ops).value, turn)
  {
    hide Perform, Sound, Allowed, Grows, RoundWrite, NotesTimeout;
    if ops != [] {
      var n := |ops| - 1;
      PerformAllEvents(s, ops[..n], turn);
      PerformAllEffect(s, ops[..n]);
      var m := PerformAll(s, ops[..n]).value;
      PerformEvents(m, ops[n], turn);
      PerformEffect(m, ops[n]);
      NewTimeoutsChain(s, m, PerformAll(s, ops).value, turn);
    }
  }

  lemma {:induction false} PerformAllTraces(s: Responses, ops: seq<SessionOp>, turn: Id)
    requires Sound(s) && RoundWrites(ops) && AllAllowed(ops) && PerformAll(s, ops).Ok? && Traceless(s.store, turn)
    requires forall i | 0 <= i < |ops| :: !CommitsTurn(ops[i], turn)
    ensures Traceless(PerformAll(s, ops).value.store, turn)
  {
    hide Perform, Sound, Allowed, Grows, RoundWrite, CommitsTurn, Traceless;
    if ops != [] {
      var n := |ops| - 1;
      PerformAllTraces(s, ops[..n], turn);
      PerformAllEffect(s, ops[..n]);
      PerformTraces(PerformAll(s, ops[..n]).value, ops[n], turn);
    }
  }

  // ---------------------------------------------------------------- one effect per context

  /** Of a turn of the round there is one write only. */
  lemma OneWritePerTurn(rank: Id -> nat, c: RoundCommand, o: Outcomes, x: SessionOp, y: SessionOp)
    requires Ready(c, o) && x in RoundOps(rank, c, o) && y in RoundOps(rank, c, o)
    requires OpTurn(x).Some? && OpTurn(x) == OpTurn(y)
    ensures x == y
  {
    hide Ready, RoundOps, OpTurn;
    assert |o.critics| == |c.critics| && |o.peers| == |c.peers| && |o.responses| == |c.responses| by {
      ReadyLengths(c, o);
    }
    var ops := RoundOps(rank, c, o);
    OneEffectPerContext(rank, c, o);
    var i, j :| 0 <= i < |ops| && 0 <= j < |ops| && ops[i] == x && ops[j] == y;
    var turns := OpTurns(ops);
    assert turns[i] == OpTurn(x) && turns[j] == OpTurn(y);
    assert OpTurn(x) in multiset(turns);
    if i < j { CountOfRepeated(turns, i, j); } else if j < i { CountOfRepeated(turns, j, i); }
  }

  lemma ReadyLengths(c: RoundCommand, o: Outcomes)
    requires Ready(c, o)
    ensures |o.critics| == |c.critics| && |o.peers| == |c.peers| && |o.responses| == |c.responses|
  {
  }

  /** The end of one context: the write is in effect; a turn that was committed has no timeout event, and one that timed
      out leaves no trace but that event. */
  ghost predicate Settled(s: Responses, t: Responses, op: SessionOp, turn: Id) {
    && Effective(t, op) && OpTurn(op) == Some(turn)
    && (op.NoteOp? ==> NotesTimeout(op, turn) && (Traceless(s.store, turn) ==> Traceless(t.store, turn)))
    && (!op.NoteOp? ==> NoNewTimeout(s, t, turn))
  }

  lemma WriteSettles(rank: Id -> nat, s: Responses, c: RoundCommand, o: Outcomes, op: SessionOp, turn: Id)
    requires Sound(s) && ForeignTimeouts(c) && Ready(c, o) && PerformAll(s, RoundOps(rank, c, o)).Ok?
    requires op in RoundOps(rank, c, o) && OpTurn(op) == Some(turn)
    ensures Settled(s, PerformAll(s, RoundOps(rank, c, o)).value, op, turn)
  {
    hide Ready, RoundOps, PerformAll, Sound, Effective, Traceless, NoNewTimeout, Allowed, Grows;
    ReadyLengths(c, o);
    var ops := RoundOps(rank, c, o);
    RoundOpsAreWrites(rank, c, o);
    PerformAllEffect(s, ops);
    var k :| 0 <= k < |ops| && ops[k] == op;
    if op.NoteOp? {
      forall i | 0 <= i < |ops| ensures !CommitsTurn(ops[i], turn) {
        if CommitsTurn(ops[i], turn) { OneWritePerTurn(rank, c, o, op, ops[i]); }
      }
      if Traceless(s.store, turn) { PerformAllTraces(s, ops, turn); }
    } else {
      forall i | 0 <= i < |ops| ensures !NotesTimeout(ops[i], turn) {
        if NotesTimeout(ops[i], turn) { OneWritePerTurn(rank, c, o, op, ops[i]); }
      }
      PerformAllEvents(s, ops, turn);
    }
  }

  /** After a successful round the session's invariants hold and nothing is lost. Every completed critic or peer turn is
      stored whole, every completed response has its rows and its effects, and none of them has a new timeout event;
      every turn that timed out has its timeout event in the ledger, and no other trace unless it had one before. */
  lemma RoundEffect(rank: Id -> nat, s: Responses, c: RoundCommand, o: Outcomes)
    requires Sound(s) && ForeignTimeouts(c) && Round(rank, s, c, o).Ok?
    ensures |o.critics| == |c.critics| && |o.peers| == |c.peers| && |o.responses| == |c.responses|
    ensures Sound(Round(rank, s, c, o).value) && ResponsesGrow(s, Round(rank, s, c, o).value)
    ensures var t, at := Round(rank, s, c, o).value, c.committedAt;
            && (forall i | 0 <= i < |o.critics| ::
                  Settled(s, t, CriticOp(c.critics[i], o.critics[i], at), o.critics[i].context.turn))
            && (forall i | 0 <= i < |o.peers| ::
                  Settled(s, t, CriticOp(c.peers[i], o.peers[i], at), o.peers[i].context.turn))
            && (forall i | 0 <= i < |o.responses| ::
                  Settled(s, t, ResponseOpOf(c, o, i), o.responses[i].context.turn))
  {
    hide Ready, RoundOps, PerformAll, Sound, Round, Settled, Grows, Allowed, CriticOp, ResponseOpOf;
    RoundIsItsWrites(rank, s, c, o);
    ReadyLengths(c, o);
    OneEffectPerContext(rank, c, o);
    RoundOpsAreWrites(rank, c, o);
    PerformAllEffect(s, RoundOps(rank, c, o));
    var at := c.committedAt;
    forall i | 0 <= i < |o.critics|
      ensures Settled(s, Round(rank, s, c, o).value, CriticOp(c.critics[i], o.critics[i], at),
                      o.critics[i].context.turn)
    {
      CriticTurnOf(c.critics[i], o.critics[i], at);
      WriteSettles(rank, s, c, o, CriticOp(c.critics[i], o.critics[i], at), o.critics[i].context.turn);
    }
    forall i | 0 <= i < |o.peers|
      ensures Settled(s, Round(rank, s, c, o).value, CriticOp(c.peers[i], o.peers[i], at), o.peers[i].context.turn)
    {
      CriticTurnOf(c.peers[i], o.peers[i], at);
      WriteSettles(rank, s, c, o, CriticOp(c.peers[i], o.peers[i], at), o.peers[i].context.turn);
    }
    forall i | 0 <= i < |o.responses|
      ensures Settled(s, Round(rank, s, c, o).value, ResponseOpOf(c, o, i), o.responses[i].context.turn)
    {
      ResponseTurnOf(c, o, i);
      WriteSettles(rank, s, c, o, ResponseOpOf(c, o, i), o.responses[i].context.turn);
    }
  }

  lemma CriticTurnOf(t: CriticTurn, o: TurnOutcome<CriticWork>, at: int)
    ensures OpTurn(CriticOp(t, o, at)) == Some(o.context.turn)
  {
  }

  lemma ResponseTurnOf(c: RoundCommand, o: Outcomes, i: nat)
    requires i < |o.responses| == |c.responses|
    ensures OpTurn(ResponseOpOf(c, o, i)) == Some(o.responses[i].context.turn)
  {
  }
}
