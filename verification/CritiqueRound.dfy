/** One critique round: critic and peer turns are committed or recorded as timed out, then the responses to critiques
    are committed in an order that their keys alone determine. */
module CritiqueRound {
  import opened Options
  import opened Records
  import Store = ArtifactStore
  import opened StoreInvariants
  import opened ArtifactService
  import opened ProposalCommit
  import opened CritiqueResponse
  import opened SessionRuns
  import opened Sorting

  // ---------------------------------------------------------------- the command and its outcomes

  datatype CriticTurn = CriticTurn(context: Context, assignment: Assignment, timeout: Id)
  datatype ResponseTurn = ResponseTurn(context: Context, timeout: Id)

  datatype RoundCommand = RoundCommand(
    round: nat, critics: seq<CriticTurn>, peers: seq<CriticTurn>, responses: seq<ResponseTurn>, budgetEvent: Id,
    inactivityEvents: seq<Id>, peerBudgetEvent: Option<Id>, responseBudgetEvent: Option<Id>, committedAt: int)

  /** What the dispatcher reports for a context: the work of the agent, or that its deadline passed. */
  datatype TurnOutcome<+T> = Done(context: Context, work: T) | Abstained(context: Context)

  datatype CriticWork = CriticWork(proposals: seq<Proposal>, requests: nat, limits: nat, execution: nat)
  datatype ResponseWork = ResponseWork(response: Response, execution: nat)

  datatype Outcomes = Outcomes(
    critics: seq<TurnOutcome<CriticWork>>, peers: seq<TurnOutcome<CriticWork>>,
    responses: seq<TurnOutcome<ResponseWork>>)

  predicate Distinct<T(==)>(s: seq<T>) { forall i, j | 0 <= i < j < |s| :: s[i] != s[j] }

  function Map<A, B>(f: A -> B, s: seq<A>): (r: seq<B>)
    ensures |r| == |s| && forall i | 0 <= i < |s| :: r[i] == f(s[i])
  {
    seq(|s|, i requires 0 <= i < |s| => f(s[i]))
  }

  function OptionSeq<T>(o: Option<T>): seq<T> { if o.Some? then [o.value] else [] }

  function EventIds(c: RoundCommand): seq<Id> {
    [c.budgetEvent] + c.inactivityEvents + Map((t: CriticTurn) => t.timeout, c.critics)
    + OptionSeq(c.peerBudgetEvent) + Map((t: CriticTurn) => t.timeout, c.peers)
    + OptionSeq(c.responseBudgetEvent) + Map((t: ResponseTurn) => t.timeout, c.responses)
  }

  function CriticTurnIds(ts: seq<CriticTurn>): seq<Id> { Map((t: CriticTurn) => t.context.turn, ts) }
  function ResponseTurnIds(ts: seq<ResponseTurn>): seq<Id> { Map((t: ResponseTurn) => t.context.turn, ts) }
  function CriticAgents(ts: seq<CriticTurn>): seq<Id> { Map((t: CriticTurn) => t.context.agent, ts) }
  function ResponseAgents(ts: seq<ResponseTurn>): seq<Id> { Map((t: ResponseTurn) => t.context.agent, ts) }

  predicate CriticTurnOk(round: nat, t: CriticTurn, role: RoleKind) {
    && t.context.round == round && t.context.phase.CritiquePhase? && t.context.roleKind == role && !t.context.sealed
    && AssignmentMatches(t.context, t.assignment)
  }

  predicate ResponseTurnOk(round: nat, t: ResponseTurn) {
    t.context.round == round && t.context.phase.RevisePhase? && t.context.sealed
  }

  function TurnIds(c: RoundCommand): seq<Id> {
    CriticTurnIds(c.critics) + CriticTurnIds(c.peers) + ResponseTurnIds(c.responses)
  }

  /** What the round command promises about its batch. */
  predicate Valid(c: RoundCommand) {
    && c.round >= 1 && c.critics != [] && |c.inactivityEvents| == |c.critics|
    && Distinct(EventIds(c))
    && (forall i | 0 <= i < |c.critics| :: CriticTurnOk(c.round, c.critics[i], Critic))
    && (forall i | 0 <= i < |c.peers| :: CriticTurnOk(c.round, c.peers[i], DomainExpert))
    && (forall i | 0 <= i < |c.responses| :: ResponseTurnOk(c.round, c.responses[i]))
    && (c.peers != [] <==> c.peerBudgetEvent.Some?) && (c.responses != [] <==> c.responseBudgetEvent.Some?)
    && Distinct(TurnIds(c))
    && Distinct(CriticAgents(c.critics)) && Distinct(CriticAgents(c.peers)) && Distinct(ResponseAgents(c.responses))
  }

  lemma DistinctNext(seen: seq<Id>, ids: seq<Id>, i: nat)
    requires i < |ids| && Distinct(seen + ids[..i])
    ensures Distinct(seen + ids[..i + 1]) <==> ids[i] !in Elements(seen + ids[..i])
  {
    var s := seen + ids[..i];
    assert seen + ids[..i + 1] == s + [ids[i]];
    if ids[i] in s {
      var k :| 0 <= k < |s| && s[k] == ids[i];
      assert (s + [ids[i]])[k] == (s + [ids[i]])[|s|];
    }
  }

  lemma DistinctPrefix(s: seq<Id>, t: seq<Id>)
    requires Distinct(s + t)
    ensures Distinct(s)
  {
    forall i, j | 0 <= i < j < |s| ensures s[i] != s[j] {
      assert (s + t)[i] == s[i] && (s + t)[j] == s[j];
    }
  }

  /** Adds identities one by one to those already seen, and fails at the first repetition. */
  method AddDistinct(seen: set<Id>, ghost before: seq<Id>, ids: seq<Id>) returns (ok: bool, all: set<Id>)
    requires seen == Elements(before) && Distinct(before)
    ensures ok <==> Distinct(before + ids)
    ensures ok ==> all == Elements(before + ids)
  {
    all := seen;
    var i := 0;
    assert before + ids[..0] == before;
    while i < |ids|
      invariant 0 <= i <= |ids|
      invariant Distinct(before + ids[..i]) && all == Elements(before + ids[..i])
    {
      DistinctNext(before, ids, i);
      if ids[i] in all {
        assert before + ids == (before + ids[..i + 1]) + ids[i + 1..];
        if Distinct(before + ids) { DistinctPrefix(before + ids[..i + 1], ids[i + 1..]); }
        return false, all;
      }
      assert before + ids[..i + 1] == (before + ids[..i]) + [ids[i]];
      all := all + {ids[i]};
      i := i + 1;
    }
    assert ids[..i] == ids;
    return true, all;
  }

  lemma NotDistinct(a: seq<Id>, b: seq<Id>)
    requires !Distinct(a)
    ensures !Distinct(a + b)
  {
    if Distinct(a + b) { DistinctPrefix(a, b); }
  }

  method DistinctIds(ids: seq<Id>) returns (ok: bool)
    ensures ok <==> Distinct(ids)
  {
    assert [] + ids == ids;
    var unique, _ := AddDistinct({}, [], ids);
    return unique;
  }

  /** Turn identities are unique across critics, peers and responders. */
  method DistinctTurns(critics: seq<Id>, peers: seq<Id>, responses: seq<Id>) returns (ok: bool)
    ensures ok <==> Distinct(critics + peers + responses)
  {
    assert [] + critics == critics;
    var criticsFine, seen := AddDistinct({}, [], critics);
    if !criticsFine {
      NotDistinct(critics, peers + responses);
      assert critics + (peers + responses) == critics + peers + responses;
      return false;
    }
    var peersFine, seen2 := AddDistinct(seen, critics, peers);
    if !peersFine {
      NotDistinct(critics + peers, responses);
      return false;
    }
    var unique, _ := AddDistinct(seen2, critics + peers, responses);
    return unique;
  }

  /** The validator of the command. */
  method ValidateBatch(c: RoundCommand) returns (ok: bool)
    ensures ok <==> Valid(c)
  {
    hide EventIds, CriticTurnOk, ResponseTurnOk, Distinct, CriticTurnIds, ResponseTurnIds, CriticAgents, ResponseAgents;
    var events := DistinctIds(EventIds(c));
    var turns := DistinctTurns(CriticTurnIds(c.critics), CriticTurnIds(c.peers), ResponseTurnIds(c.responses));
    var agents1 := DistinctIds(CriticAgents(c.critics));
    var agents2 := DistinctIds(CriticAgents(c.peers));
    var agents3 := DistinctIds(ResponseAgents(c.responses));
    return events && turns && agents1 && agents2 && agents3
        && c.round >= 1 && c.critics != [] && |c.inactivityEvents| == |c.critics|
        && (forall i | 0 <= i < |c.critics| :: CriticTurnOk(c.round, c.critics[i], Critic))
        && (forall i | 0 <= i < |c.peers| :: CriticTurnOk(c.round, c.peers[i], DomainExpert))
        && (forall i | 0 <= i < |c.responses| :: ResponseTurnOk(c.round, c.responses[i]))
        && (c.peers != [] <==> c.peerBudgetEvent.Some?) && (c.responses != [] <==> c.responseBudgetEvent.Some?);
  }

  // ---------------------------------------------------------------- the writes of a round

  function TimeoutEvent(c: Context, targets: seq<Id>, id: Id, at: int): Event {
    Event(EventContext(id, c.correlation, Some(c.causation), Actor(AGENT, c.agent), at), c.round,
          TurnTimedOut(c.turn, c.agent, c.agentVersion, c.phase, targets), None, None)
  }

  function CriticOp(t: CriticTurn, o: TurnOutcome<CriticWork>, at: int): SessionOp {
    match o
    case Abstained(context) => NoteOp(TimeoutEvent(context, t.assignment.targets, t.timeout, at))
    case Done(context, w) =>
      TurnOp(TurnCommit(context, w.proposals, w.requests, w.limits, w.execution, at), Some(t.assignment))
  }

  function CriticOps(ts: seq<CriticTurn>, os: seq<TurnOutcome<CriticWork>>, at: int): (r: seq<SessionOp>)
    requires |ts| == |os|
    ensures |r| == |ts| && forall i | 0 <= i < |ts| :: r[i] == CriticOp(ts[i], os[i], at)
  {
    seq(|ts|, i requires 0 <= i < |ts| => CriticOp(ts[i], os[i], at))
  }

  function TimeoutNotes(ts: seq<ResponseTurn>, os: seq<TurnOutcome<ResponseWork>>, at: int): seq<SessionOp>
    requires |ts| == |os|
  {
    if ts == [] then []
    else
      var n := |ts| - 1;
      var c := os[n].context;
      TimeoutNotes(ts[..n], os[..n], at)
      + if os[n].Abstained? then [NoteOp(TimeoutEvent(c, VisibleIds(c.visible), ts[n].timeout, at))] else []
  }

  function ResponseCommands(os: seq<TurnOutcome<ResponseWork>>, at: int): seq<ResponseCommand> {
    if os == [] then []
    else
      var n := |os| - 1;
      ResponseCommands(os[..n], at)
      + if os[n].Done? then [ResponseCommand(os[n].context, os[n].work.response, os[n].work.execution, at)] else []
  }

  /** Ascending by target and then by responder, both as the integers that UUIDs are. */
  function ByTargetAndResponder(rank: Id -> nat): (ResponseCommand, ResponseCommand) -> bool {
    (x: ResponseCommand, y: ResponseCommand) =>
      var (a, b) := (rank(x.response.target), rank(y.response.target));
      a < b || (a == b && rank(x.context.agent) <= rank(y.context.agent))
  }

  function ResponseOps(rank: Id -> nat, cs: seq<ResponseCommand>): seq<SessionOp> {
    Map((c: ResponseCommand) => ResponseOp(c), Sort(ByTargetAndResponder(rank), cs))
  }

  function RoundOps(rank: Id -> nat, c: RoundCommand, o: Outcomes): seq<SessionOp>
    requires |o.critics| == |c.critics| && |o.peers| == |c.peers| && |o.responses| == |c.responses|
  {
    CriticOps(c.critics, o.critics, c.committedAt) + CriticOps(c.peers, o.peers, c.committedAt)
    + TimeoutNotes(c.responses, o.responses, c.committedAt)
    + ResponseOps(rank, ResponseCommands(o.responses, c.committedAt))
  }

  predicate ContextsMatch<T>(contexts: seq<Context>, os: seq<TurnOutcome<T>>) {
    |contexts| == |os| && forall i | 0 <= i < |os| :: os[i].context == contexts[i]
  }

  predicate BundlesOk(ts: seq<CriticTurn>, os: seq<TurnOutcome<CriticWork>>, at: int)
    requires |ts| == |os|
  {
    forall i | 0 <= i < |os| && os[i].Done? :: CriticBundleOk(CriticOp(ts[i], os[i], at).turn, ts[i].assignment.targets)
  }

  /** A round answers under each response identity and to each critique head once. */
  predicate ResponsesOk(cs: seq<ResponseCommand>) {
    && (forall i | 0 <= i < |cs| :: WellFormed(cs[i]))
    && forall i, j | 0 <= i < j < |cs| :: cs[i].Id() != cs[j].Id() && cs[i].response.critique != cs[j].response.critique
  }

  predicate Ready(c: RoundCommand, o: Outcomes) {
    && Valid(c)
    && CriticsMatch(c.critics, o.critics) && CriticsMatch(c.peers, o.peers)
    && ResponsesMatch(c.responses, o.responses)
    && BundlesOk(c.critics, o.critics, c.committedAt) && BundlesOk(c.peers, o.peers, c.committedAt)
    && ResponsesOk(ResponseCommands(o.responses, c.committedAt))
  }

  /** One write of a round; unlike `After`, an error is passed on. */
  function Perform(s: Responses, op: SessionOp): Result<Responses> {
    match op
    case TurnOp(c, a) => (var (store, _) :- CommitTurn(s.store, c, a); Ok(s.(store := store)))
    case ResponseOp(c) => (var (s', _) :- CommitResponse(s, c); Ok(s'))
    case NoteOp(e) => (var (l, _) :- Store.Append(s.store.ledger, e); Ok(s.(store := s.store.(ledger := l))))
    case ArtifactOp(o) => (var (store, _) :- Apply(s.store, o); Ok(s.(store := store)))
  }

  function PerformAll(s: Responses, ops: seq<SessionOp>): Result<Responses> {
    if ops == [] then Ok(s)
    else
      var s' :- PerformAll(s, ops[..|ops| - 1]);
      Perform(s', ops[|ops| - 1])
  }

  predicate CriticsMatch(ts: seq<CriticTurn>, os: seq<TurnOutcome<CriticWork>>) {
    ContextsMatch(Map((t: CriticTurn) => t.context, ts), os)
  }

  predicate ResponsesMatch(ts: seq<ResponseTurn>, os: seq<TurnOutcome<ResponseWork>>) {
    ContextsMatch(Map((t: ResponseTurn) => t.context, ts), os)
  }

  /** A round checks the critique phase, writes it, checks the response phase, and writes that; the first error ends
      it. */
  function Round(rank: Id -> nat, s: Responses, c: RoundCommand, o: Outcomes): Result<Responses> {
    if !Valid(c) then Err(MalformedCommand)
    else if !CriticsMatch(c.critics, o.critics) || !CriticsMatch(c.peers, o.peers) then Err(DispatchMismatch)
    else
      :- Need(BundlesOk(c.critics, o.critics, c.committedAt) && BundlesOk(c.peers, o.peers, c.committedAt),
              BadAssignment);
      var s1 :- PerformAll(s, CriticOps(c.critics, o.critics, c.committedAt));
      var s2 :- PerformAll(s1, CriticOps(c.peers, o.peers, c.committedAt));
      if !ResponsesMatch(c.responses, o.responses) then Err(DispatchMismatch)
      else
        var commands := ResponseCommands(o.responses, c.committedAt);
        :- Need(ResponsesOk(commands), MalformedCommand);
        var s3 :- PerformAll(s2, TimeoutNotes(c.responses, o.responses, c.committedAt));
        PerformAll(s3, ResponseOps(rank, commands))
  }

  // ---------------------------------------------------------------- one effect per context

  function OpTurn(op: SessionOp): Option<Id> {
    match op
    case TurnOp(c, _) => Some(c.context.turn)
    case ResponseOp(c) => Some(c.context.turn)
    case NoteOp(e) => if e.body.TurnTimedOut? then Some(e.body.turn) else None
    case ArtifactOp(_) => None
  }

  function OpTurns(ops: seq<SessionOp>): seq<Option<Id>> { Map(OpTurn, ops) }

  function ContextTurns<T>(os: seq<TurnOutcome<T>>): seq<Option<Id>> {
    Map((o: TurnOutcome<T>) => Some(o.context.turn), os)
  }

  function CommandTurns(cs: seq<ResponseCommand>): seq<Option<Id>> {
    Map((c: ResponseCommand) => Some(c.context.turn), cs)
  }

  lemma MapConcat<A, B>(f: A -> B, a: seq<A>, b: seq<A>)
    ensures Map(f, a + b) == Map(f, a) + Map(f, b)
  {
  }

  lemma MapAround<A, B>(f: A -> B, front: seq<A>, x: A, back: seq<A>)
    ensures multiset(Map(f, front + ([x] + back))) == multiset{f(x)} + multiset(Map(f, front + back))
  {
    MapConcat(f, front, [x] + back);
    MapConcat(f, [x], back);
    MapConcat(f, front, back);
    assert Map(f, [x]) == [f(x)];
  }

  lemma SplitAt<A>(b: seq<A>, x: A) returns (front: seq<A>, back: seq<A>)
    requires x in b
    ensures b == front + ([x] + back) && multiset(b) == multiset{x} + multiset(front + back)
  {
    var k :| 0 <= k < |b| && b[k] == x;
    front, back := b[..k], b[k + 1..];
    assert b == front + ([x] + back);
  }

  lemma {:induction false} MapPermutes<A, B>(f: A -> B, a: seq<A>, b: seq<A>)
    requires multiset(a) == multiset(b)
    ensures multiset(Map(f, a)) == multiset(Map(f, b))
  {
    hide Map;
    if a == [] {
      assert |multiset(b)| == 0;
    } else {
      assert a[0] in multiset(b);
      var front, back := SplitAt(b, a[0]);
      RestOf(a);
      MapPermutes(f, a[1..], front + back);
      MapAround(f, front, a[0], back);
      MapAround(f, [], a[0], a[1..]);
      assert a == [] + ([a[0]] + a[1..]) && [] + a[1..] == a[1..];
    }
  }

  lemma {:induction false} ResponsesSplit(ts: seq<ResponseTurn>, os: seq<TurnOutcome<ResponseWork>>, at: int)
    requires |ts| == |os|
    ensures multiset(OpTurns(TimeoutNotes(ts, os, at))) + multiset(CommandTurns(ResponseCommands(os, at)))
         == multiset(ContextTurns(os))
  {
    if ts != [] {
      var n := |ts| - 1;
      ResponsesSplit(ts[..n], os[..n], at);
      assert ContextTurns(os) == ContextTurns(os[..n]) + [Some(os[n].context.turn)];
      if os[n].Done? {
        var c := ResponseCommand(os[n].context, os[n].work.response, os[n].work.execution, at);
        assert CommandTurns(ResponseCommands(os[..n], at) + [c])
            == CommandTurns(ResponseCommands(os[..n], at)) + [Some(os[n].context.turn)];
        assert TimeoutNotes(ts, os, at) == TimeoutNotes(ts[..n], os[..n], at);
      } else {
        var c := os[n].context;
        var op := NoteOp(TimeoutEvent(c, VisibleIds(c.visible), ts[n].timeout, at));
        assert OpTurns(TimeoutNotes(ts[..n], os[..n], at) + [op])
            == OpTurns(TimeoutNotes(ts[..n], os[..n], at)) + [Some(c.turn)];
        assert ResponseCommands(os, at) == ResponseCommands(os[..n], at);
      }
    }
  }

  lemma ResponseOpTurns(rank: Id -> nat, cs: seq<ResponseCommand>)
    ensures multiset(OpTurns(ResponseOps(rank, cs))) == multiset(CommandTurns(cs))
  {
    var sorted := Sort(ByTargetAndResponder(rank), cs);
    SortPermutes(ByTargetAndResponder(rank), cs);
    assert OpTurns(ResponseOps(rank, cs)) == CommandTurns(sorted);
    MapPermutes((c: ResponseCommand) => Some(c.context.turn), sorted, cs);
    assert CommandTurns(sorted) == Map((c: ResponseCommand) => Some(c.context.turn), sorted);
    assert CommandTurns(cs) == Map((c: ResponseCommand) => Some(c.context.turn), cs);
  }

  lemma {:induction false} DistinctCount<T>(s: seq<T>, x: T)
    requires Distinct(s) && x in s
    ensures multiset(s)[x] == 1
  {
    var n := |s| - 1;
    assert s == s[..n] + [s[n]];
    if x == s[n] {
      assert x !in multiset(s[..n]);
    } else {
      assert x in s[..n];
      DistinctCount(s[..n], x);
    }
  }

  /** The turns of all contexts of a round. */
  function AllTurns(o: Outcomes): seq<Option<Id>> {
    ContextTurns(o.critics) + ContextTurns(o.peers) + ContextTurns(o.responses)
  }

  lemma OpTurnsOfRound(rank: Id -> nat, c: RoundCommand, o: Outcomes)
    requires |o.critics| == |c.critics| && |o.peers| == |c.peers| && |o.responses| == |c.responses|
    ensures multiset(OpTurns(RoundOps(rank, c, o))) == multiset(AllTurns(o))
  {
    var at := c.committedAt;
    var a, b := CriticOps(c.critics, o.critics, at), CriticOps(c.peers, o.peers, at);
    var n, r := TimeoutNotes(c.responses, o.responses, at), ResponseOps(rank, ResponseCommands(o.responses, at));
    assert OpTurns(a + b + n + r) == OpTurns(a) + OpTurns(b) + OpTurns(n) + OpTurns(r);
    assert OpTurns(a) == ContextTurns(o.critics);
    assert OpTurns(b) == ContextTurns(o.peers);
    ResponsesSplit(c.responses, o.responses, at);
    ResponseOpTurns(rank, ResponseCommands(o.responses, at));
  }

  lemma {:induction false} TimeoutNoted(ts: seq<ResponseTurn>, os: seq<TurnOutcome<ResponseWork>>, at: int, i: nat)
    requires i < |ts| == |os| && os[i].Abstained?
    ensures NoteOp(TimeoutEvent(os[i].context, VisibleIds(os[i].context.visible), ts[i].timeout, at))
         in TimeoutNotes(ts, os, at)
  {
    if i < |ts| - 1 { TimeoutNoted(ts[..|ts| - 1], os[..|ts| - 1], at, i); }
  }

  lemma {:induction false} ResponseCommanded(os: seq<TurnOutcome<ResponseWork>>, at: int, i: nat)
    requires i < |os| && os[i].Done?
    ensures ResponseCommand(os[i].context, os[i].work.response, os[i].work.execution, at) in ResponseCommands(os, at)
  {
    if i < |os| - 1 { ResponseCommanded(os[..|os| - 1], at, i); }
  }

  function ResponseOpOf(c: RoundCommand, o: Outcomes, i: nat): SessionOp
    requires i < |o.responses| == |c.responses|
  {
    match o.responses[i]
    case Done(context, w) => ResponseOp(ResponseCommand(context, w.response, w.execution, c.committedAt))
    case Abstained(context) =>
      NoteOp(TimeoutEvent(context, VisibleIds(context.visible), c.responses[i].timeout, c.committedAt))
  }

  lemma ResponseOpPresent(rank: Id -> nat, c: RoundCommand, o: Outcomes, i: nat)
    requires |o.critics| == |c.critics| && |o.peers| == |c.peers| && i < |o.responses| == |c.responses|
    ensures ResponseOpOf(c, o, i) in RoundOps(rank, c, o)
  {
    var at := c.committedAt;
    if o.responses[i].Abstained? {
      TimeoutNoted(c.responses, o.responses, at, i);
    } else {
      ResponseCommanded(o.responses, at, i);
      var cs := ResponseCommands(o.responses, at);
      var sorted := Sort(ByTargetAndResponder(rank), cs);
      MembersOfSort(ByTargetAndResponder(rank), cs);
      var command := ResponseOpOf(c, o, i).response;
      var k :| 0 <= k < |sorted| && sorted[k] == command;
      assert ResponseOps(rank, cs)[k] == ResponseOpOf(c, o, i);
    }
  }

  lemma TurnsAreDistinct(c: RoundCommand, o: Outcomes)
    requires Ready(c, o)
    ensures Distinct(AllTurns(o))
  {
    hide BundlesOk, ResponsesOk, EventIds, CriticTurnOk, ResponseTurnOk, CriticAgents, ResponseAgents;
    assert AllTurns(o) == Map((t: Id) => Some(t), TurnIds(c));
  }

  /** Every context of a round ends as exactly one write, a commit when its turn completed and a timeout event when it
      did not. */
  lemma OneEffectPerContext(rank: Id -> nat, c: RoundCommand, o: Outcomes)
    requires Ready(c, o)
    ensures var turns := multiset(OpTurns(RoundOps(rank, c, o)));
            turns == multiset(AllTurns(o)) && forall t | t in AllTurns(o) :: turns[t] == 1
    ensures var ops := RoundOps(rank, c, o);
            && (forall i | 0 <= i < |o.critics| :: CriticOp(c.critics[i], o.critics[i], c.committedAt) in ops)
            && (forall i | 0 <= i < |o.peers| :: CriticOp(c.peers[i], o.peers[i], c.committedAt) in ops)
            && (forall i | 0 <= i < |o.responses| :: ResponseOpOf(c, o, i) in ops)
  {
    hide Valid, OpTurns, AllTurns, CriticOp, ResponseOpOf, TimeoutNotes, ResponseCommands, ResponseOps, Distinct;
    OpTurnsOfRound(rank, c, o);
    TurnsAreDistinct(c, o);
    forall t | t in AllTurns(o) ensures multiset(AllTurns(o))[t] == 1 {
      DistinctCount(AllTurns(o), t);
    }
    var at := c.committedAt;
    forall i | 0 <= i < |o.critics| ensures CriticOp(c.critics[i], o.critics[i], at) in RoundOps(rank, c, o) {
      assert CriticOp(c.critics[i], o.critics[i], at) in CriticOps(c.critics, o.critics, at);
    }
    forall i | 0 <= i < |o.peers| ensures CriticOp(c.peers[i], o.peers[i], at) in RoundOps(rank, c, o) {
      assert CriticOp(c.peers[i], o.peers[i], at) in CriticOps(c.peers, o.peers, at);
    }
    forall i | 0 <= i < |o.responses| ensures ResponseOpOf(c, o, i) in RoundOps(rank, c, o) {
      ResponseOpPresent(rank, c, o, i);
    }
  }

  /** What a performed write leaves in the state. */
  ghost predicate Effective(s: Responses, op: SessionOp) {
    match op
    case TurnOp(c, _) => TurnStored(s.store, c)
    case ResponseOp(c) =>
      && c.Id() in s.requests && s.requests[c.Id()] == RequestOf(c)
      && c.Id() in s.results && s.results[c.Id()] == ResultOf(c) && EffectsPresent(s.store, ResultOf(c))
    case NoteOp(e) => e.Id() in s.store.ledger.byId && Store.SameAppend(e, s.store.ledger.byId[e.Id()])
    case ArtifactOp(_) => true
  }

  lemma EffectiveGrows(s: Responses, t: Responses, op: SessionOp)
    requires Effective(s, op) && ResponsesGrow(s, t)
    ensures Effective(t, op)
  {
    hide TurnStored, EffectsPresent;
    if op.TurnOp? { StoredGrows(s.store, t.store, op.turn); }
    if op.ResponseOp? { EffectsGrow(s.store, t.store, ResultOf(op.response)); }
  }

  lemma PerformEffect(s: Responses, op: SessionOp)
    requires Sound(s) && Allowed(op) && Perform(s, op).Ok?
    ensures var t := Perform(s, op).value; t == After(s, op) && Sound(t) && ResponsesGrow(s, t) && Effective(t, op)
  {
    hide CommitTurn, CommitResponse, Inv, AllOrNothing, Grows, EffectsPresent;
    AfterKeeps(s, op);
    match op {
      case TurnOp(c, a) => CommitTurnKeeps(s.store, c, a);
      case ResponseOp(c) => CommitResponseKeeps(s, c);
      case _ =>
    }
  }

  /** After a successful round every one of its writes is in the state, the session's invariants still hold, and
      nothing that was there is lost. */
  lemma {:induction false} PerformAllEffect(s: Responses, ops: seq<SessionOp>)
    requires Sound(s) && AllAllowed(ops) && PerformAll(s, ops).Ok?
    ensures var t := PerformAll(s, ops).value;
            Sound(t) && ResponsesGrow(s, t) && forall i | 0 <= i < |ops| :: Effective(t, ops[i])
  {
    hide Perform, Sound, Allowed, Grows, Effective;
    if ops == [] {
      GrowsReflexive(s.store);
    } else {
      var n := |ops| - 1;
      PerformAllEffect(s, ops[..n]);
      var m := PerformAll(s, ops[..n]).value;
      PerformEffect(m, ops[n]);
      var t := PerformAll(s, ops).value;
      ResponsesGrowTransitive(s, m, t);
      forall i | 0 <= i < |ops| ensures Effective(t, ops[i]) {
        if i < n { EffectiveGrows(m, t, ops[..n][i]); }
      }
    }
  }

  // ---------------------------------------------------------------- the order of the responses

  ghost predicate Injective(rank: Id -> nat) { forall x, y | rank(x) == rank(y) :: x == y }

  lemma KeyOrder(rank: Id -> nat)
    ensures TotalPreorder(ByTargetAndResponder(rank))
  {
  }

  /** The order in which responses are committed is ascending by (target, responder) and does not depend on the order
      in which the dispatcher delivered them. */
  lemma ResponseOrderIsCanonical(rank: Id -> nat, a: seq<ResponseCommand>, b: seq<ResponseCommand>)
    requires Injective(rank) && multiset(a) == multiset(b)
    requires forall i, j | 0 <= i < j < |a| :: a[i].context.agent != a[j].context.agent
    ensures ResponseOps(rank, a) == ResponseOps(rank, b)
    ensures Sorted(ByTargetAndResponder(rank), Sort(ByTargetAndResponder(rank), a))
  {
    KeyOrder(rank);
    var leq := ByTargetAndResponder(rank);
    forall x, y | x in a && y in a && leq(x, y) && leq(y, x) ensures x == y {
      var i, j :| 0 <= i < |a| && 0 <= j < |a| && a[i] == x && a[j] == y;
      assert rank(x.context.agent) == rank(y.context.agent);
    }
    SortIsCanonical(leq, a, b);
    SortSorted(leq, a);
  }

  // ---------------------------------------------------------------- the coordinator object

  lemma {:induction false} PerformConcat(s: Responses, a: seq<SessionOp>, b: seq<SessionOp>)
    ensures PerformAll(s, a + b) == Then(PerformAll(s, a), b)
    decreases |b|
  {
    hide Perform;
    if b == [] {
      assert a + b == a;
    } else {
      var n := |b| - 1;
      assert (a + b)[..|a + b| - 1] == a + b[..n];
      PerformConcat(s, a, b[..n]);
    }
  }

  lemma PerformNext(s: Responses, ops: seq<SessionOp>, i: nat)
    requires i < |ops| && PerformAll(s, ops[..i]).Ok?
    ensures PerformAll(s, ops[..i + 1]) == Perform(PerformAll(s, ops[..i]).value, ops[i])
    ensures PerformAll(s, ops[..i + 1]).Err? ==> PerformAll(s, ops) == PerformAll(s, ops[..i + 1])
  {
    hide Perform;
    assert ops[..i + 1][..i] == ops[..i];
    assert ops == ops[..i + 1] + ops[i + 1..];
    PerformConcat(s, ops[..i + 1], ops[i + 1..]);
  }

  lemma NotesNext(ts: seq<ResponseTurn>, os: seq<TurnOutcome<ResponseWork>>, at: int, i: nat)
    requires i < |ts| == |os|
    ensures TimeoutNotes(ts[..i + 1], os[..i + 1], at)
         == if os[i].Done? then TimeoutNotes(ts[..i], os[..i], at)
            else TimeoutNotes(ts[..i], os[..i], at)
                 + [NoteOp(TimeoutEvent(os[i].context, VisibleIds(os[i].context.visible), ts[i].timeout, at))]
  {
    assert ts[..i + 1][..i] == ts[..i] && os[..i + 1][..i] == os[..i];
  }

  lemma {:induction false} NotesFail(
    s: Responses, ts: seq<ResponseTurn>, os: seq<TurnOutcome<ResponseWork>>, at: int, i: nat)
    requires i <= |ts| == |os| && PerformAll(s, TimeoutNotes(ts[..i], os[..i], at)).Err?
    ensures PerformAll(s, TimeoutNotes(ts, os, at)) == PerformAll(s, TimeoutNotes(ts[..i], os[..i], at))
    decreases |ts| - i
  {
    hide PerformAll;
    if i == |ts| {
      assert ts[..i] == ts && os[..i] == os;
    } else {
      NotesNext(ts, os, at, i);
      PerformPrefixFails(s, TimeoutNotes(ts[..i], os[..i], at), TimeoutNotes(ts[..i + 1], os[..i + 1], at));
      NotesFail(s, ts, os, at, i + 1);
    }
  }

  lemma PerformPrefixFails(s: Responses, a: seq<SessionOp>, b: seq<SessionOp>)
    requires a <= b && PerformAll(s, a).Err?
    ensures PerformAll(s, b) == PerformAll(s, a)
  {
    hide PerformAll;
    assert b == a + b[|a|..];
    PerformConcat(s, a, b[|a|..]);
  }

  lemma CommandsNext(os: seq<TurnOutcome<ResponseWork>>, at: int, i: nat)
    requires i < |os|
    ensures ResponseCommands(os[..i + 1], at)
         == ResponseCommands(os[..i], at)
            + if os[i].Done?
              then [ResponseCommand(os[i].context, os[i].work.response, os[i].work.execution, at)] else []
  {
    assert os[..i + 1][..i] == os[..i];
  }

  lemma {:induction false} CommandsPrefix(os: seq<TurnOutcome<ResponseWork>>, at: int, i: nat)
    requires i <= |os|
    ensures ResponseCommands(os[..i], at) <= ResponseCommands(os, at)
    decreases |os| - i
  {
    if i == |os| { assert os[..i] == os; } else { CommandsNext(os, at, i); CommandsPrefix(os, at, i + 1); }
  }

  lemma NotOkPrefix(a: seq<ResponseCommand>, b: seq<ResponseCommand>)
    requires a <= b && !ResponsesOk(a)
    ensures !ResponsesOk(b)
  {
    if ResponsesOk(b) {
      forall i | 0 <= i < |a| ensures WellFormed(a[i]) { assert a[i] == b[i]; }
      forall i, j | 0 <= i < j < |a|
        ensures a[i].Id() != a[j].Id() && a[i].response.critique != a[j].response.critique
      {
        assert a[i] == b[i] && a[j] == b[j];
      }
    }
  }

  class CritiqueRoundCoordinator {
    const critiques: AgentProposalCommitter
    const responses: CritiqueResponseCommitter

    constructor (proposals: AgentProposalCommitter, answers: CritiqueResponseCommitter)
      ensures critiques == proposals && responses == answers
    {
      critiques, responses := proposals, answers;
    }

    /** Both committers write through the same artifact service. */
    ghost predicate Wired() { critiques.commits == responses.commits }

    function View(): Responses
      reads responses, responses.commits
    {
      responses.View()
    }

    method Execute(op: SessionOp) returns (r: Result<()>)
      requires Wired() && !op.ArtifactOp?
      modifies responses, responses.commits
      ensures match Perform(old(View()), op)
              case Ok(s) => r.Ok? && View() == s
              case Err(e) => r == Err(e)
    {
      hide CommitTurn, CommitResponse, Store.Append;
      match op {
        case TurnOp(c, a) =>
          var writes :- critiques.Commit(c, a);
        case ResponseOp(c) =>
          var result :- responses.Commit(c);
        case NoteOp(e) =>
          var appended :- Store.Append(responses.commits.ledger, e);
          responses.commits.ledger := appended.0;
      }
      return Ok(());
    }

    /** Commits the completed critic turns and records the others, in assignment order. */
    method CommitCritiques(ts: seq<CriticTurn>, os: seq<TurnOutcome<CriticWork>>, at: int) returns (r: Result<()>)
      requires Wired() && |ts| == |os|
      modifies responses, responses.commits
      ensures match PerformAll(old(View()), CriticOps(ts, os, at))
              case Ok(s) => r.Ok? && View() == s
              case Err(e) => r == Err(e)
    {
      hide Perform, CriticOp;
      ghost var s0 := View();
      ghost var ops := CriticOps(ts, os, at);
      var i := 0;
      while i < |ts|
        invariant 0 <= i <= |ts| && PerformAll(s0, ops[..i]) == Ok(View())
      {
        PerformNext(s0, ops, i);
        NoArtifactOp(ts[i], os[i], at);
        var done := Execute(CriticOp(ts[i], os[i], at));
        if done.Err? { return Err(done.error); }
        i := i + 1;
      }
      assert ops[..i] == ops;
      return Ok(());
    }

    method RecordTimeouts(ts: seq<ResponseTurn>, os: seq<TurnOutcome<ResponseWork>>, at: int) returns (r: Result<()>)
      requires Wired() && |ts| == |os|
      modifies responses, responses.commits
      ensures match PerformAll(old(View()), TimeoutNotes(ts, os, at))
              case Ok(s) => r.Ok? && View() == s
              case Err(e) => r == Err(e)
    {
      hide Perform, TimeoutEvent, PerformAll, TimeoutNotes;
      ghost var s0 := View();
      var i := 0;
      NoNotes(s0, ts, os, at);
      while i < |ts|
        invariant 0 <= i <= |ts| && PerformAll(s0, TimeoutNotes(ts[..i], os[..i], at)) == Ok(View())
      {
        NotesNext(ts, os, at, i);
        if os[i].Abstained? {
          var c := os[i].context;
          var note := NoteOp(TimeoutEvent(c, VisibleIds(c.visible), ts[i].timeout, at));
          PerformConcat(s0, TimeoutNotes(ts[..i], os[..i], at), [note]);
          PerformOne(View(), note);
          var done := Execute(note);
          if done.Err? {
            NotesFail(s0, ts, os, at, i + 1);
            return Err(done.error);
          }
        }
        i := i + 1;
      }
      assert ts[..i] == ts && os[..i] == os;
      return Ok(());
    }

    /** Builds the commands of the completed turns, each response and each critique head at most once. */
    method PrepareResponses(os: seq<TurnOutcome<ResponseWork>>, at: int) returns (r: Result<seq<ResponseCommand>>)
      ensures r == if ResponsesOk(ResponseCommands(os, at)) then Ok(ResponseCommands(os, at)) else Err(MalformedCommand)
    {
      hide WellFormed, ResponsesOk, ResponseIds, CritiqueHeads, ResponseCommands;
      NoCommands(os, at);
      var prepared, ids, heads := [], {}, {};
      var i := 0;
      while i < |os|
        invariant 0 <= i <= |os| && prepared == ResponseCommands(os[..i], at) && ResponsesOk(prepared)
        invariant ids == ResponseIds(prepared) && heads == CritiqueHeads(prepared)
      {
        CommandsNext(os, at, i);
        if os[i].Done? {
          var c := ResponseCommand(os[i].context, os[i].work.response, os[i].work.execution, at);
          if !WellFormed(c) || c.Id() in ids || c.response.critique in heads {
            RepeatedIsRefused(prepared, c);
            CommandsPrefix(os, at, i + 1);
            NotOkPrefix(prepared + [c], ResponseCommands(os, at));
            return Err(MalformedCommand);
          }
          IdentitiesNext(prepared, c);
          AcceptedNext(prepared, c);
          ids, heads, prepared := ids + {c.Id()}, heads + {c.response.critique}, prepared + [c];
        }
        i := i + 1;
      }
      assert os[..i] == os;
      return Ok(prepared);
    }

    method CommitResponses(ordered: seq<ResponseCommand>) returns (r: Result<()>)
      requires Wired()
      modifies responses, responses.commits
      ensures match PerformAll(old(View()), Map((c: ResponseCommand) => ResponseOp(c), ordered))
              case Ok(s) => r.Ok? && View() == s
              case Err(e) => r == Err(e)
    {
      hide Perform;
      ghost var s0 := View();
      ghost var ops := Map((c: ResponseCommand) => ResponseOp(c), ordered);
      var i := 0;
      while i < |ordered|
        invariant 0 <= i <= |ordered| && PerformAll(s0, ops[..i]) == Ok(View())
      {
        PerformNext(s0, ops, i);
        var done := Execute(ResponseOp(ordered[i]));
        if done.Err? { return Err(done.error); }
        i := i + 1;
      }
      assert ops[..i] == ops;
      return Ok(());
    }

    /** Critics, then peers, then timeouts of responders, then responses by (target, responder); any error makes the
        caller roll the whole round back. */
    method Run(rank: Id -> nat, c: RoundCommand, o: Outcomes) returns (r: Result<()>)
      requires Wired()
      modifies responses, responses.commits
      ensures match Round(rank, old(View()), c, o)
              case Ok(s) => r.Ok? && View() == s
              case Err(e) => r == Err(e)
    {
      hide Valid, ContextsMatch, BundlesOk, ResponsesOk, PerformAll, CriticOps, TimeoutNotes, ResponseCommands,
           ByTargetAndResponder;
      var at := c.committedAt;
      var valid := ValidateBatch(c);
      if !valid { return Err(MalformedCommand); }
      :- Need(CriticsMatch(c.critics, o.critics), DispatchMismatch);
      :- Need(CriticsMatch(c.peers, o.peers), DispatchMismatch);
      MatchLength(Map((t: CriticTurn) => t.context, c.critics), o.critics);
      MatchLength(Map((t: CriticTurn) => t.context, c.peers), o.peers);
      :- Need(BundlesOk(c.critics, o.critics, at) && BundlesOk(c.peers, o.peers, at), BadAssignment);
      var critics :- CommitCritiques(c.critics, o.critics, at);
      var peers :- CommitCritiques(c.peers, o.peers, at);
      :- Need(ResponsesMatch(c.responses, o.responses), DispatchMismatch);
      MatchLength(Map((t: ResponseTurn) => t.context, c.responses), o.responses);
      var commands :- PrepareResponses(o.responses, at);
      var timeouts :- RecordTimeouts(c.responses, o.responses, at);
      r := CommitResponses(Sort(ByTargetAndResponder(rank), commands));
    }
  }

  lemma NoArtifactOp(t: CriticTurn, o: TurnOutcome<CriticWork>, at: int)
    ensures !CriticOp(t, o, at).ArtifactOp?
  {
  }

  lemma NoCommands(os: seq<TurnOutcome<ResponseWork>>, at: int)
    ensures ResponseCommands(os[..0], at) == [] && ResponsesOk([]) && ResponseIds([]) == {} && CritiqueHeads([]) == {}
  {
  }

  lemma NoNotes(s: Responses, ts: seq<ResponseTurn>, os: seq<TurnOutcome<ResponseWork>>, at: int)
    requires |ts| == |os|
    ensures PerformAll(s, TimeoutNotes(ts[..0], os[..0], at)) == Ok(s)
  {
  }

  lemma PerformOne(s: Responses, op: SessionOp)
    ensures PerformAll(s, [op]) == Perform(s, op)
  {
    hide Perform;
    assert [op][..0] == [];
  }

  lemma MatchLength<T>(contexts: seq<Context>, os: seq<TurnOutcome<T>>)
    requires ContextsMatch(contexts, os)
    ensures |contexts| == |os|
  {
  }

  function ResponseIds(cs: seq<ResponseCommand>): set<Id> { set k | 0 <= k < |cs| :: cs[k].Id() }
  function CritiqueHeads(cs: seq<ResponseCommand>): set<Id> { set k | 0 <= k < |cs| :: cs[k].response.critique }

  lemma IdentitiesNext(cs: seq<ResponseCommand>, c: ResponseCommand)
    ensures ResponseIds(cs + [c]) == ResponseIds(cs) + {c.Id()}
    ensures CritiqueHeads(cs + [c]) == CritiqueHeads(cs) + {c.response.critique}
  {
    var more := cs + [c];
    assert more[|cs|] == c && forall k | 0 <= k < |cs| :: more[k] == cs[k];
    forall x | x in ResponseIds(cs) ensures x in ResponseIds(more) {
      var k :| 0 <= k < |cs| && cs[k].Id() == x;
      assert more[k].Id() == x;
    }
    forall x | x in CritiqueHeads(cs) ensures x in CritiqueHeads(more) {
      var k :| 0 <= k < |cs| && cs[k].response.critique == x;
      assert more[k].response.critique == x;
    }
  }

  lemma RepeatedIsRefused(cs: seq<ResponseCommand>, c: ResponseCommand)
    requires !WellFormed(c) || c.Id() in ResponseIds(cs) || c.response.critique in CritiqueHeads(cs)
    ensures !ResponsesOk(cs + [c])
  {
    assert (cs + [c])[|cs|] == c;
    if WellFormed(c) {
      var k :| 0 <= k < |cs| && (cs[k].Id() == c.Id() || cs[k].response.critique == c.response.critique);
      assert (cs + [c])[k] == cs[k];
    }
  }

  lemma AcceptedNext(cs: seq<ResponseCommand>, c: ResponseCommand)
    requires ResponsesOk(cs) && WellFormed(c) && c.Id() !in ResponseIds(cs) && c.response.critique !in CritiqueHeads(cs)
    ensures ResponsesOk(cs + [c])
  {
  }

  function Then(m: Result<Responses>, ops: seq<SessionOp>): Result<Responses> {
    if m.Err? then m else PerformAll(m.value, ops)
  }

  /** The four groups of writes of a round, one after the other. */
  lemma RoundInParts(rank: Id -> nat, s: Responses, c: RoundCommand, o: Outcomes)
    requires |o.critics| == |c.critics| && |o.peers| == |c.peers| && |o.responses| == |c.responses|
    ensures PerformAll(s, RoundOps(rank, c, o))
         == Then(Then(Then(PerformAll(s, CriticOps(c.critics, o.critics, c.committedAt)),
                           CriticOps(c.peers, o.peers, c.committedAt)),
                      TimeoutNotes(c.responses, o.responses, c.committedAt)),
                 ResponseOps(rank, ResponseCommands(o.responses, c.committedAt)))
  {
    hide PerformAll, TimeoutNotes, ResponseOps, CriticOps;
    var at := c.committedAt;
    var a, b := CriticOps(c.critics, o.critics, at), CriticOps(c.peers, o.peers, at);
    var n, r := TimeoutNotes(c.responses, o.responses, at), ResponseOps(rank, ResponseCommands(o.responses, at));
    PerformConcat(s, a + b + n, r);
    PerformConcat(s, a + b, n);
    PerformConcat(s, a, b);
  }

  /** A round succeeds exactly when its command, its outcomes and its responses are in order and all of its writes, one
      after the other, succeed. */
  lemma RoundIsItsWrites(rank: Id -> nat, s: Responses, c: RoundCommand, o: Outcomes)
    ensures Round(rank, s, c, o).Ok? <==> Ready(c, o) && PerformAll(s, RoundOps(rank, c, o)).Ok?
    ensures Round(rank, s, c, o).Ok? ==> Round(rank, s, c, o) == PerformAll(s, RoundOps(rank, c, o))
  {
    hide Valid, ContextsMatch, BundlesOk, ResponsesOk, PerformAll, CriticOps, TimeoutNotes, ResponseCommands,
         ResponseOps, RoundOps;
    if CriticsMatch(c.critics, o.critics) && CriticsMatch(c.peers, o.peers)
       && ResponsesMatch(c.responses, o.responses) {
      MatchLength(Map((t: CriticTurn) => t.context, c.critics), o.critics);
      MatchLength(Map((t: CriticTurn) => t.context, c.peers), o.peers);
      MatchLength(Map((t: ResponseTurn) => t.context, c.responses), o.responses);
      RoundInParts(rank, s, c, o);
    }
  }
}
