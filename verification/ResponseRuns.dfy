/** Critique responses over the life of a session: each has left nothing, or everything that one command writes. */
module ResponseRuns {
  import opened Options
  import opened Records
  import Store = ArtifactStore
  import opened StoreInvariants
  import opened ArtifactService
  import opened ProposalCommit
  import opened CritiqueResponse
  import opened SessionRuns

  // ---------------------------------------------------------------- what a response writes

  ghost predicate FromResponse(response: Id, id: Id) { id.OfResponse? && id.response == response }

  /** Everything one revision writes is in the store. */
  ghost predicate RevisionStored(s: Store.State, w: Store.Write, edge: Id, reason: string) {
    var a := w.artifact;
    && a.content.supersedes.Some?
    && a.id in s.artifacts && s.artifacts[a.id].content == a.content
    && a.id in s.graph.nodeFor && s.graph.nodeFor[a.id] == w.node
    && w.node in s.graph.nodes && s.graph.nodes[w.node].id == w.node
    && edge in s.graph.edges && Elements(w.relationshipEdges) <= s.graph.edges.Keys
    && w.context.event in s.ledger.byId
    && s.ledger.byId[w.context.event]
       == Store.ArtifactEvent(a, w.context, Store.RevisedBody(a, a.content.supersedes.value, reason))
  }

  /** The artifacts a response revises are there. */
  ghost predicate Answerable(s: Store.State, c: ResponseCommand) {
    && c.response.critique in s.artifacts && c.response.target in s.artifacts
    && s.artifacts[c.response.critique].content.payload.CritiquePayload?
  }

  /** The identities under which a response writes its rows. */
  ghost function ResponseWriteIds(s: Store.State, c: ResponseCommand): set<Id>
    requires Answerable(s, c)
  {
    WriteIds(CritiqueWrite(c, s.artifacts[c.response.critique]))
    + {ResponseId(c, CritiqueSupersedesRole), ResponseId(c, ResponseEventRole)}
    + if c.response.revision.None? then {}
      else WriteIds(TargetWrite(c, s.artifacts[c.response.target], c.response.revision.value))
           + {ResponseId(c, TargetSupersedesRole)}
  }

  ghost predicate ResponseStored(s: Store.State, c: ResponseCommand) {
    && Answerable(s, c)
    && RevisionStored(s, CritiqueWrite(c, s.artifacts[c.response.critique]), ResponseId(c, CritiqueSupersedesRole),
                      CRITIQUE_REASON)
    && (c.response.revision.Some? ==>
          RevisionStored(s, TargetWrite(c, s.artifacts[c.response.target], c.response.revision.value),
                         ResponseId(c, TargetSupersedesRole), TARGET_REASON))
    && ResponseId(c, ResponseEventRole) in s.ledger.byId
    && s.ledger.byId[ResponseId(c, ResponseEventRole)] == ResponseEvent(c)
  }

  /** No row of the session comes from the response. */
  ghost predicate Unanswered(s: Responses, response: Id) {
    && response !in s.requests && response !in s.results
    && forall id | id in Ids(s.store) :: !FromResponse(response, id)
  }

  /** The rows that come from the response are exactly those of one command. */
  ghost predicate Answered(s: Responses, c: ResponseCommand) {
    && c.Id() in s.requests && s.requests[c.Id()] == RequestOf(c)
    && c.Id() in s.results && s.results[c.Id()] == ResultOf(c)
    && ResponseStored(s.store, c)
    && forall id | id in Ids(s.store) && FromResponse(c.Id(), id) :: id in ResponseWriteIds(s.store, c)
  }

  ghost predicate AllOrNoResponse(s: Responses) {
    forall response :: Unanswered(s, response) || exists c: ResponseCommand :: c.Id() == response && Answered(s, c)
  }

  // ---------------------------------------------------------------- stored rows stay

  lemma RevisionStoredGrows(s: Store.State, t: Store.State, w: Store.Write, edge: Id, reason: string)
    requires RevisionStored(s, w, edge, reason) && Grows(s, t)
    ensures RevisionStored(t, w, edge, reason)
  {
  }

  lemma SameWrites(s: Store.State, t: Store.State, c: ResponseCommand)
    requires Answerable(s, c) && Grows(s, t)
    ensures Answerable(t, c)
    ensures CritiqueWrite(c, t.artifacts[c.response.critique]) == CritiqueWrite(c, s.artifacts[c.response.critique])
    ensures c.response.revision.Some? ==>
              TargetWrite(c, t.artifacts[c.response.target], c.response.revision.value)
              == TargetWrite(c, s.artifacts[c.response.target], c.response.revision.value)
    ensures ResponseWriteIds(t, c) == ResponseWriteIds(s, c)
  {
  }

  lemma ResponseStoredGrows(s: Store.State, t: Store.State, c: ResponseCommand)
    requires ResponseStored(s, c) && Grows(s, t)
    ensures ResponseStored(t, c)
  {
    hide RevisionStored, CritiqueWrite, TargetWrite, ResponseWriteIds;
    SameWrites(s, t, c);
    RevisionStoredGrows(s, t, CritiqueWrite(c, s.artifacts[c.response.critique]),
                        ResponseId(c, CritiqueSupersedesRole), CRITIQUE_REASON);
    if c.response.revision.Some? {
      RevisionStoredGrows(s, t, TargetWrite(c, s.artifacts[c.response.target], c.response.revision.value),
                          ResponseId(c, TargetSupersedesRole), TARGET_REASON);
    }
  }

  lemma AnsweredGrows(s: Responses, t: Responses, c: ResponseCommand)
    requires Answered(s, c) && ResponsesGrow(s, t)
    requires forall id | id in Ids(t.store) && FromResponse(c.Id(), id) :: id in Ids(s.store)
    ensures Answered(t, c)
  {
    hide ResponseStored, ResponseWriteIds, Grows, Ids;
    assert Answerable(s.store, c) by { StoredIsAnswerable(s.store, c); }
    ResponseStoredGrows(s.store, t.store, c);
    SameWrites(s.store, t.store, c);
  }

  lemma StoredIsAnswerable(s: Store.State, c: ResponseCommand)
    requires ResponseStored(s, c)
    ensures Answerable(s, c)
  {
  }

  // ---------------------------------------------------------------- a first response

  lemma ReviseIds(s: Store.State, w: Store.Write, edge: Id, reason: string)
    requires Store.Revise(s, w, edge, reason).Ok?
    ensures Ids(Store.Revise(s, w, edge, reason).value.0) == Ids(s) + WriteIds(w) + {edge}
    ensures Store.Revise(s, w, edge, reason).value.0.ledger.byId.Keys == s.ledger.byId.Keys + {w.context.event}
  {
    hide Store.Revise;
    ReviseRows(s, w, edge, reason);
  }

  lemma RevisionIsStored(s: Store.State, w: Store.Write, edge: Id, reason: string)
    requires Inv(s) && Store.Revise(s, w, edge, reason).Ok?
    ensures RevisionStored(Store.Revise(s, w, edge, reason).value.0, w, edge, reason)
  {
    hide Store.Revise, Inv;
    ReviseRows(s, w, edge, reason);
    ReviseKeepsInv(s, w, edge, reason);
    SupersedingRows(s.artifacts, w.artifact, w.context.recordedAt);
  }

  lemma AppendIds(s: Store.State, e: Event)
    requires Store.Append(s.ledger, e).Ok?
    ensures Ids(s.(ledger := Store.Append(s.ledger, e).value.0)) == Ids(s) + {e.Id()}
  {
    AppendRows(s.ledger, e);
  }

  /** The writes of a first response in order: the critique's revision, the target's, the response event. */
  lemma WritesInOrder(s: Store.State, c: ResponseCommand) returns (s1: Store.State, s2: Store.State)
    requires Inv(s) && CheckResponse(s, c).Pass? && WriteResponse(s, c).Ok?
    ensures Answerable(s, c)
    ensures var w := CritiqueWrite(c, s.artifacts[c.response.critique]);
            var edge := ResponseId(c, CritiqueSupersedesRole);
            Store.Revise(s, w, edge, CRITIQUE_REASON).Ok? && s1 == Store.Revise(s, w, edge, CRITIQUE_REASON).value.0
    ensures c.response.revision.None? ==> s2 == s1
    ensures c.response.revision.Some? ==>
              var w := TargetWrite(c, s.artifacts[c.response.target], c.response.revision.value);
              var edge := ResponseId(c, TargetSupersedesRole);
              Store.Revise(s1, w, edge, TARGET_REASON).Ok? && s2 == Store.Revise(s1, w, edge, TARGET_REASON).value.0
    ensures Store.Append(s2.ledger, ResponseEvent(c)).Ok?
    ensures WriteResponse(s, c) == Ok(s2.(ledger := Store.Append(s2.ledger, ResponseEvent(c)).value.0))
    ensures Inv(s1) && Grows(s, s1) && Inv(s2) && Grows(s1, s2)
  {
    hide Store.Revise, Inv, CheckResponse, Store.Append, CritiqueWrite, TargetWrite, Grows;
    ArtifactOfHead(s, c);
    s1 := ReviseCritique(s, c).value.0;
    s2 := ReviseTarget(s1, c, s.artifacts[c.response.target]).value;
    RevisionEffect(s, CritiqueWrite(c, s.artifacts[c.response.critique]), ResponseId(c, CritiqueSupersedesRole),
                   CRITIQUE_REASON);
    if c.response.revision.Some? {
      RevisionEffect(s1, TargetWrite(c, s.artifacts[c.response.target], c.response.revision.value),
                     ResponseId(c, TargetSupersedesRole), TARGET_REASON);
    } else {
      GrowsReflexive(s1);
    }
  }

  lemma WriteResponseIds(s: Store.State, c: ResponseCommand)
    requires Inv(s) && CheckResponse(s, c).Pass? && WriteResponse(s, c).Ok?
    ensures Answerable(s, c) && Ids(WriteResponse(s, c).value) == Ids(s) + ResponseWriteIds(s, c)
  {
    hide Store.Revise, Inv, CheckResponse, Store.Append, CritiqueWrite, TargetWrite, Grows, WriteResponse, WriteIds,
         Ids;
    var s1, s2 := WritesInOrder(s, c);
    ReviseIds(s, CritiqueWrite(c, s.artifacts[c.response.critique]), ResponseId(c, CritiqueSupersedesRole),
              CRITIQUE_REASON);
    if c.response.revision.Some? {
      ReviseIds(s1, TargetWrite(c, s.artifacts[c.response.target], c.response.revision.value),
                ResponseId(c, TargetSupersedesRole), TARGET_REASON);
    }
    AppendIds(s2, ResponseEvent(c));
  }

  /** A response writes under its own identities only. */
  lemma WriteIdsAreOwn(s: Store.State, c: ResponseCommand, id: Id)
    requires Answerable(s, c) && id in ResponseWriteIds(s, c)
    ensures FromResponse(c.Id(), id)
  {
  }

  lemma WriteResponseStored(s: Store.State, c: ResponseCommand)
    requires Inv(s) && CheckResponse(s, c).Pass? && WriteResponse(s, c).Ok?
    requires ResponseId(c, ResponseEventRole) !in s.ledger.byId
    ensures ResponseStored(WriteResponse(s, c).value, c) && Grows(s, WriteResponse(s, c).value)
  {
    hide Store.Revise, Inv, CheckResponse, Store.Append, CritiqueWrite, TargetWrite, Grows, WriteResponse,
         RevisionStored;
    var s1, s2 := WritesInOrder(s, c);
    var t := WriteResponse(s, c).value;
    var w := CritiqueWrite(c, s.artifacts[c.response.critique]);
    RevisionIsStored(s, w, ResponseId(c, CritiqueSupersedesRole), CRITIQUE_REASON);
    ReviseIds(s, w, ResponseId(c, CritiqueSupersedesRole), CRITIQUE_REASON);
    EventOfCritiqueWrite(c, s.artifacts[c.response.critique]);
    AppendOnlyGrows(s2, ResponseEvent(c));
    GrowsTransitive(s1, s2, t);
    GrowsTransitive(s, s1, t);
    RevisionStoredGrows(s1, t, w, ResponseId(c, CritiqueSupersedesRole), CRITIQUE_REASON);
    if c.response.revision.Some? {
      var v := TargetWrite(c, s.artifacts[c.response.target], c.response.revision.value);
      RevisionIsStored(s1, v, ResponseId(c, TargetSupersedesRole), TARGET_REASON);
      ReviseIds(s1, v, ResponseId(c, TargetSupersedesRole), TARGET_REASON);
      EventOfTargetWrite(c, s.artifacts[c.response.target], c.response.revision.value);
      RevisionStoredGrows(s2, t, v, ResponseId(c, TargetSupersedesRole), TARGET_REASON);
    }
    SameWrites(s, t, c);
    AppendedEvent(s2.ledger, ResponseEvent(c));
  }

  lemma EventOfCritiqueWrite(c: ResponseCommand, critique: Artifact)
    requires critique.content.payload.CritiquePayload?
    ensures CritiqueWrite(c, critique).context.event == ResponseId(c, CritiqueEventRole)
  {
  }

  lemma EventOfTargetWrite(c: ResponseCommand, target: Artifact, revision: Proposal)
    ensures TargetWrite(c, target, revision).context.event == ResponseId(c, TargetEventRole)
  {
  }

  lemma AppendedEvent(l: Store.Ledger, e: Event)
    requires e.Id() !in l.byId
    ensures Store.Append(l, e).Ok? && Store.Append(l, e).value.0.byId == l.byId[e.Id() := e]
  {
  }

  lemma NoEventYet(s: Responses, c: ResponseCommand)
    requires Unanswered(s, c.Id())
    ensures ResponseId(c, ResponseEventRole) !in s.store.ledger.byId
  {
    assert s.store.ledger.byId.Keys <= Ids(s.store);
  }

  /** A first response leaves all its rows, under its own identities only. */
  lemma FirstResponseIsWhole(s: Responses, c: ResponseCommand)
    requires Inv(s.store) && Unanswered(s, c.Id()) && CommitResponse(s, c).Ok?
    ensures var t := CommitResponse(s, c).value.0;
            && Answered(t, c) && ResponsesGrow(s, t)
            && forall id | id in Ids(t.store) :: id in Ids(s.store) || FromResponse(c.Id(), id)
  {
    hide Inv, CheckResponse, WriteResponse, ResponseStored, ResponseWriteIds, Grows, EffectsPresent;
    var t := CommitResponse(s, c).value.0;
    NoEventYet(s, c);
    WriteResponseIds(s.store, c);
    WriteResponseStored(s.store, c);
    SameWrites(s.store, t.store, c);
    forall id | id in ResponseWriteIds(s.store, c) ensures FromResponse(c.Id(), id) {
      WriteIdsAreOwn(s.store, c, id);
    }
  }

  // ---------------------------------------------------------------- every run

  /** Identities derived from a response are allocated by the response commit alone. */
  ghost predicate Foreign(op: SessionOp) {
    match op
    case ArtifactOp(CommitOp(w)) => forall id | id in WriteIds(w) :: !id.OfResponse?
    case ArtifactOp(ReviseOp(w, edge, _)) => (forall id | id in WriteIds(w) :: !id.OfResponse?) && !edge.OfResponse?
    case ArtifactOp(WithdrawOp(_, _, _, context)) => !context.event.OfResponse?
    case NoteOp(e) => !e.Id().OfResponse?
    case _ => true
  }

  lemma ArtifactResponseIds(s: Store.State, op: Op, id: Id)
    requires Foreign(ArtifactOp(op)) && id in Ids(ArtifactService.Step(s, op)) && id.OfResponse?
    ensures id in Ids(s)
  {
    hide Store.Commit, Store.Revise, Store.Withdraw;
    if Apply(s, op).Ok? {
      match op {
        case CommitOp(w) => CommitIds(s, w);
        case ReviseOp(w, edge, reason) => ReviseIds(s, w, edge, reason);
        case WithdrawOp(x, reason, warrants, context) => WithdrawIds(s, x, reason, warrants, context);
      }
    }
  }

  /** No other operation adds an identity derived from a response. */
  lemma OtherIds(s: Responses, op: SessionOp, id: Id)
    requires Sound(s) && Allowed(op) && Foreign(op) && !op.ResponseOp?
    requires id in Ids(After(s, op).store) && id.OfResponse?
    ensures id in Ids(s.store)
  {
    hide Inv, AllOrNothing, CommitTurn, Ids, ArtifactService.Step, Store.Append, Foreign, AnyPrior, WriteTurn,
         CritiqueContract;
    match op {
      case ArtifactOp(o) => ArtifactResponseIds(s.store, o, id);
      case TurnOp(c, a) =>
        if CommitTurn(s.store, c, a).Ok? {
          AcceptedGuards(s.store, c, a);
          if !AnyPrior(s.store, c) { WriteTurnIds(s.store, c, id); }
        }
      case NoteOp(e) =>
        if Store.Append(s.store.ledger, e).Ok? {
          AppendIds(s.store, e);
          ForeignNote(e);
        }
    }
  }

  lemma ForeignNote(e: Event)
    requires Foreign(NoteOp(e))
    ensures !e.Id().OfResponse?
  {
  }

  /** An operation that adds nothing of a response keeps it unanswered or whole. */
  lemma OthersStayWhole(s: Responses, t: Responses, response: Id)
    requires Unanswered(s, response) || exists c: ResponseCommand :: c.Id() == response && Answered(s, c)
    requires ResponsesGrow(s, t)
    requires response in t.requests ==> response in s.requests
    requires response in t.results ==> response in s.results
    requires forall id | id in Ids(t.store) && FromResponse(response, id) :: id in Ids(s.store)
    ensures Unanswered(t, response) || exists c: ResponseCommand :: c.Id() == response && Answered(t, c)
  {
    hide Ids, Grows, ResponseStored, ResponseWriteIds;
    if !Unanswered(s, response) {
      var c: ResponseCommand :| c.Id() == response && Answered(s, c);
      AnsweredGrows(s, t, c);
    }
  }

  lemma ResponseOpKeeps(s: Responses, c: ResponseCommand)
    requires Sound(s) && AllOrNoResponse(s)
    ensures AllOrNoResponse(After(s, ResponseOp(c)))
  {
    hide Inv, AllOrNothing, CommitResponse, Unanswered, Answered, FromResponse, Ids;
    var t := After(s, ResponseOp(c));
    if CommitResponse(s, c).Ok? {
      if Unanswered(s, c.Id()) {
        FirstResponseIsWhole(s, c);
        forall response
          ensures Unanswered(t, response) || exists d: ResponseCommand :: d.Id() == response && Answered(t, d)
        {
          if response != c.Id() {
            OneResponseAdds(s, c, response);
            OthersStayWhole(s, t, response);
          }
        }
      } else {
        SpentIsNoOp(s, c);
      }
    }
  }

  lemma OneResponseAdds(s: Responses, c: ResponseCommand, response: Id)
    requires CommitResponse(s, c).Ok? && response != c.Id()
    requires forall id | id in Ids(CommitResponse(s, c).value.0.store) :: id in Ids(s.store) || FromResponse(c.Id(), id)
    ensures var t := CommitResponse(s, c).value.0;
            && (response in t.requests ==> response in s.requests) && (response in t.results ==> response in s.results)
            && forall id | id in Ids(t.store) && FromResponse(response, id) :: id in Ids(s.store)
  {
    hide CheckResponse, WriteResponse, WellFormed, EffectsPresent, Ids;
  }

  lemma SpentIsNoOp(s: Responses, c: ResponseCommand)
    requires AllOrNoResponse(s) && !Unanswered(s, c.Id()) && CommitResponse(s, c).Ok?
    ensures CommitResponse(s, c).value.0 == s
  {
    hide CheckResponse, WriteResponse, WellFormed, EffectsPresent, Ids, ResponseStored, ResponseWriteIds;
  }

  lemma OtherOpKeeps(s: Responses, op: SessionOp)
    requires Sound(s) && AllOrNoResponse(s) && Allowed(op) && Foreign(op) && !op.ResponseOp?
    ensures AllOrNoResponse(After(s, op))
  {
    hide Sound, Allowed, Foreign, Unanswered, Answered, Ids, CommitTurn, Store.Append, ArtifactService.Step;
    AfterKeeps(s, op);
    var t := After(s, op);
    forall response
      ensures Unanswered(t, response) || exists c: ResponseCommand :: c.Id() == response && Answered(t, c)
    {
      forall id | id in Ids(t.store) && FromResponse(response, id) ensures id in Ids(s.store) { OtherIds(s, op, id); }
      OthersStayWhole(s, t, response);
    }
  }

  ghost predicate AllForeign(ops: seq<SessionOp>) { forall i | 0 <= i < |ops| :: Foreign(ops[i]) }

  lemma {:induction false} HistoryKeepsResponses(ops: seq<SessionOp>)
    requires AllAllowed(ops) && AllForeign(ops)
    ensures AllOrNoResponse(History(ops))
  {
    hide Sound, Allowed, Foreign, After, Unanswered, Answered;
    if ops == [] {
      StartUnanswered();
    } else {
      var n := |ops| - 1;
      HistoryKeepsResponses(ops[..n]);
      HistoryIsSound(ops[..n]);
      if ops[n].ResponseOp? {
        ResponseOpKeeps(History(ops[..n]), ops[n].response);
      } else {
        OtherOpKeeps(History(ops[..n]), ops[n]);
      }
    }
  }

  lemma StartUnanswered()
    ensures forall response :: Unanswered(START, response)
  {
  }

  /** In every reachable state a response has left neither a request, nor a result, nor any row derived from it; or one
      command accounts for all rows derived from it, and every row, edge and event of that command is there. */
  lemma ResponsesAreWhole(ops: seq<SessionOp>, response: Id) returns (c: Option<ResponseCommand>)
    requires AllAllowed(ops) && AllForeign(ops)
    ensures var s := History(ops);
            && (c.None? ==>
                  && response !in s.requests && response !in s.results
                  && forall id | id in Ids(s.store) :: !FromResponse(response, id))
            && (c.Some? ==>
                  && c.value.Id() == response && ResponseStored(s.store, c.value)
                  && response in s.requests && s.requests[response] == RequestOf(c.value)
                  && response in s.results && s.results[response] == ResultOf(c.value)
                  && forall id | id in Ids(s.store) && FromResponse(response, id) ::
                       id in ResponseWriteIds(s.store, c.value))
  {
    hide History, Allowed, Foreign, ResponseStored, ResponseWriteIds, Ids;
    HistoryKeepsResponses(ops);
    if Unanswered(History(ops), response) { return None; }
    var d: ResponseCommand :| d.Id() == response && Answered(History(ops), d);
    return Some(d);
  }
}
