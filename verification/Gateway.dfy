/** The tool gateway: a bounded cache of results, a table of calls in flight, and every interleaving of its callers. */
module Gateway {
  datatype Server = Server(name: nat, endpoint: nat)

  /** All that identifies a call; `context` stands for the trusted context apart from the two identities spelled out. */
  datatype Identity = Identity(
    server: Server, tool: nat, operation: nat, correlation: nat, context: nat, argsHash: nat)

  /** `wellFormed` says that the content is one JSON value of the expected shape. */
  datatype ToolResult = ToolResult(
    operation: nat, correlation: nat, server: Server, tool: nat, untrusted: bool, source: nat, wellFormed: bool,
    payload: nat)

  predicate Accepts(id: Identity, r: ToolResult) {
    && r.operation == id.operation && r.correlation == id.correlation && r.server == id.server && r.tool == id.tool
    && r.untrusted && r.source == id.server.endpoint && r.wellFormed
  }

  datatype Failure = OPERATION_CONFLICT | TOOL_CANCELLED | TOOL_TIMEOUT | RESULT_INVALID | UPSTREAM

  // ---------------------------------------------------------------- the two tables

  /** A call in flight, with the future it waits on and the caller that started it. */
  datatype Entry = Entry(identity: Identity, future: nat, owner: nat)

  /** `order` lists the cached operations from the oldest insertion to the newest. */
  datatype Tables = Tables(dedup: map<nat, (Identity, ToolResult)>, order: seq<nat>, inflight: map<nat, Entry>)

  const MAX_DEDUP_ENTRIES: nat := 1024

  datatype Admission = Refused | Cached(result: ToolResult) | Joined(future: nat) | Started

  /** The first critical section: answer from the cache, join the call in flight, or start one under `future`. */
  function Admit(t: Tables, caller: nat, id: Identity, future: nat): (Admission, Tables) {
    var op := id.operation;
    if op in t.dedup then (if t.dedup[op].0 != id then Refused else Cached(t.dedup[op].1), t)
    else if op in t.inflight then (if t.inflight[op].identity != id then Refused else Joined(t.inflight[op].future), t)
    else (Started, t.(inflight := t.inflight[op := Entry(id, future, caller)]))
  }

  function Release(t: Tables, op: nat): Tables { t.(inflight := t.inflight - {op}) }

  function Evict(t: Tables): Tables
    requires t.order != []
  {
    t.(dedup := t.dedup - {t.order[0]}, order := t.order[1..])
  }

  function Insert(t: Tables, id: Identity, r: ToolResult): Tables {
    var op := id.operation;
    t.(dedup := t.dedup[op := (id, r)], order := if op in t.dedup then t.order else t.order + [op])
  }

  /** The last critical section: evict the oldest entry of a full cache, then insert or overwrite. */
  function Remember(t: Tables, id: Identity, r: ToolResult): Tables {
    Insert(if |t.dedup| >= MAX_DEDUP_ENTRIES && t.order != [] then Evict(t) else t, id, r)
  }

  /** The cache and its insertion order list the same operations, each once. */
  ghost predicate Ordered(t: Tables) {
    && (forall i, j | 0 <= i < j < |t.order| :: t.order[i] != t.order[j])
    && (forall op :: op in t.dedup <==> op in t.order)
  }

  ghost predicate Bounded(t: Tables) { Ordered(t) && |t.order| <= MAX_DEDUP_ENTRIES }

  lemma {:induction false} KeysCount(m: map<nat, (Identity, ToolResult)>, order: seq<nat>)
    requires forall i, j | 0 <= i < j < |order| :: order[i] != order[j]
    requires forall op :: op in m <==> op in order
    ensures |m| == |order|
  {
    if order == [] {
      assert m.Keys == {};
      assert |m.Keys| == 0;
    } else {
      var m' := m - {order[0]};
      KeysCount(m', order[1..]);
      assert m.Keys == m'.Keys + {order[0]};
      assert |m| == |m.Keys| && |m'| == |m'.Keys|;
    }
  }

  lemma EvictOrdered(t: Tables)
    requires Ordered(t) && t.order != []
    ensures Ordered(Evict(t))
  {
    assert t.order == [t.order[0]] + t.order[1..];
    assert t.order[0] !in t.order[1..];
  }

  lemma InsertOrdered(t: Tables, id: Identity, r: ToolResult)
    requires Ordered(t)
    ensures Ordered(Insert(t, id, r)) && |Insert(t, id, r).order| <= |t.order| + 1
  {
  }

  /** The cache never exceeds its bound, and an eviction takes the oldest entry only. */
  lemma RememberBounded(t: Tables, id: Identity, r: ToolResult)
    requires Bounded(t)
    ensures Bounded(Remember(t, id, r))
    ensures var t' := Remember(t, id, r);
            && t'.inflight == t.inflight && id.operation in t'.dedup && t'.dedup[id.operation] == (id, r)
            && (forall op | op in t'.dedup && op != id.operation :: op in t.dedup && t'.dedup[op] == t.dedup[op])
            && (forall op | op in t.dedup && op !in t'.dedup ::
                  |t.dedup| == MAX_DEDUP_ENTRIES && t.order != [] && op == t.order[0])
  {
    hide Ordered;
    OrderedCount(t);
    if |t.dedup| >= MAX_DEDUP_ENTRIES {
      EvictOrdered(t);
      InsertOrdered(Evict(t), id, r);
    } else {
      InsertOrdered(t, id, r);
    }
  }

  lemma OrderedCount(t: Tables)
    requires Ordered(t)
    ensures |t.dedup| == |t.order|
  {
    KeysCount(t.dedup, t.order);
  }

  lemma SameCache(t: Tables, t': Tables)
    requires Bounded(t) && t'.dedup == t.dedup && t'.order == t.order
    ensures Bounded(t')
  {
  }

  /** Starting a call and leaving it restores the tables, and no result is lost on the way. */
  lemma StartThenLeave(t: Tables, caller: nat, id: Identity, future: nat)
    ensures var (r, t') := Admit(t, caller, id, future);
            && (r.Started? ==> Release(t', id.operation) == t)
            && (!r.Started? ==> t' == t)
  {
    if Admit(t, caller, id, future).0.Started? {
      var t' := Admit(t, caller, id, future).1;
      assert (t'.inflight - {id.operation}) == t.inflight;
    }
  }

  class MCPGateway {
    var dedup: map<nat, (Identity, ToolResult)>
    var order: seq<nat>
    var inflight: map<nat, Entry>

    function View(): Tables
      reads this
    {
      Tables(dedup, order, inflight)
    }

    constructor ()
      ensures View() == Tables(map[], [], map[]) && Bounded(View())
    {
      dedup, order, inflight := map[], [], map[];
    }

    method Enter(caller: nat, id: Identity, future: nat) returns (r: Admission)
      modifies this
      ensures (r, View()) == Admit(old(View()), caller, id, future)
    {
      var op := id.operation;
      if op in dedup {
        if dedup[op].0 != id { return Refused; }
        return Cached(dedup[op].1);
      }
      if op in inflight {
        if inflight[op].identity != id { return Refused; }
        return Joined(inflight[op].future);
      }
      inflight := inflight[op := Entry(id, future, caller)];
      return Started;
    }

    /** Gives up the call in flight; cached results, their order and all other calls stay. */
    method Leave(op: nat)
      modifies this`inflight
      ensures View() == Release(old(View()), op)
      ensures op !in inflight
      ensures forall x | x != op :: x in inflight <==> x in old(inflight)
      ensures forall x | x in inflight :: inflight[x] == old(inflight)[x]
      ensures Bounded(old(View())) ==> Bounded(View())
    {
      inflight := inflight - {op};
    }

    method Store(id: Identity, r: ToolResult)
      requires Bounded(View())
      modifies this
      ensures View() == Remember(old(View()), id, r) && Bounded(View())
    {
      RememberBounded(View(), id, r);
      OrderedCount(View());
      if |dedup| >= MAX_DEDUP_ENTRIES {
        dedup, order := dedup - {order[0]}, order[1..];
      }
      if id.operation !in dedup { order := order + [id.operation]; }
      dedup := dedup[id.operation := (id, r)];
    }
  }

  // ---------------------------------------------------------------- callers

  datatype UpstreamOutcome = Pending | Done(result: ToolResult) | TimedOut | Failed | Cancelled

  /** An upstream call: whom it was made for, and what became of it. */
  datatype Future = Future(identity: Identity, outcome: UpstreamOutcome, cancelRequested: bool)

  datatype Exit = Got(result: ToolResult) | Fail(failure: Failure)

  /** Where a caller is. `Settling` awaits the upstream cancellation that follows a cancelled or expired wait; `Leaving`
      is about to drop its table entry; `Left` has dropped it (or had none) and has yet to check and keep its result. */
  datatype Caller =
    | Entering(identity: Identity)
    | Awaiting(identity: Identity, future: nat, owner: bool)
    | Settling(identity: Identity, future: nat, owner: bool, failure: Failure)
    | Leaving(identity: Identity, future: nat, exit: Exit)
    | Left(identity: Identity, future: nat, result: ToolResult)
    | Returned(identity: Identity, result: ToolResult)
    | Raised(identity: Identity, failure: Failure)
  {
    predicate Finished() { Returned? || Raised? }
    predicate Owns() { (Awaiting? && owner) || (Settling? && owner) || Leaving? }
  }

  datatype State = State(tables: Tables, futures: seq<Future>, callers: map<nat, Caller>)

  const START := State(Tables(map[], [], map[]), [], map[])

  /** One indivisible stretch of the event loop. */
  datatype Step =
    | Arrive(caller: nat, identity: Identity)
    | EnterStep(caller: nat)
    | Resolve(future: nat, outcome: UpstreamOutcome)
    | Resume(caller: nat)
    | CancelStep(caller: nat)
    | Settle(caller: nat)
    | LeaveStep(caller: nat)
    | Finish(caller: nat)

  predicate Enabled(s: State, step: Step) {
    match step
    case Arrive(c, _) => c !in s.callers
    case EnterStep(c) => c in s.callers && s.callers[c].Entering?
    case Resolve(f, outcome) =>
      && f < |s.futures| && s.futures[f].outcome.Pending? && !outcome.Pending?
      && (outcome.Cancelled? ==> s.futures[f].cancelRequested)
    case Resume(c) =>
      && c in s.callers && s.callers[c].Awaiting? && s.callers[c].future < |s.futures|
      && !s.futures[s.callers[c].future].outcome.Pending?
    case CancelStep(c) =>
      && c in s.callers && (s.callers[c].Awaiting? ==> s.callers[c].future < |s.futures|)
      && (s.callers[c].Entering? || s.callers[c].Awaiting? || s.callers[c].Settling? || s.callers[c].Left?)
    case Settle(c) => c in s.callers && s.callers[c].Settling?
    case LeaveStep(c) => c in s.callers && s.callers[c].Leaving?
    case Finish(c) => c in s.callers && s.callers[c].Left?
  }

  function Put(s: State, c: nat, pc: Caller): State { s.(callers := s.callers[c := pc]) }

  function AfterEnter(s: State, c: nat, id: Identity): State {
    var (r, t) := Admit(s.tables, c, id, |s.futures|);
    var s' := s.(tables := t);
    match r
    case Refused => Put(s', c, Raised(id, OPERATION_CONFLICT))
    case Cached(result) => Put(s', c, Returned(id, result))
    case Joined(f) => Put(s', c, Awaiting(id, f, false))
    case Started => Put(s'.(futures := s.futures + [Future(id, Pending, false)]), c, Awaiting(id, |s.futures|, true))
  }

  /** A wait ended with an exception or was cancelled: owners still have their entry to drop. */
  function Exiting(pc: Caller, owner: bool, failure: Failure): Caller
    requires pc.Awaiting? || pc.Settling?
  {
    if owner then Leaving(pc.identity, pc.future, Fail(failure)) else Raised(pc.identity, failure)
  }

  function AfterCancelled(s: State, c: nat, pc: Caller): State
    requires pc.Awaiting? && pc.future < |s.futures|
  {
    if pc.owner then
      Put(s.(futures := s.futures[pc.future := s.futures[pc.future].(cancelRequested := true)]), c,
          Settling(pc.identity, pc.future, true, TOOL_CANCELLED))
    else Put(s, c, Raised(pc.identity, TOOL_CANCELLED))
  }

  function AfterResume(s: State, c: nat, pc: Caller): State
    requires pc.Awaiting? && pc.future < |s.futures| && !s.futures[pc.future].outcome.Pending?
  {
    match s.futures[pc.future].outcome
    case Done(r) =>
      Put(s, c, if pc.owner then Leaving(pc.identity, pc.future, Got(r)) else Left(pc.identity, pc.future, r))
    case TimedOut => Put(s, c, Settling(pc.identity, pc.future, pc.owner, TOOL_TIMEOUT))
    case Failed => Put(s, c, Exiting(pc, pc.owner, UPSTREAM))
    case Cancelled => AfterCancelled(s, c, pc)
  }

  function AfterFinish(s: State, c: nat, id: Identity, r: ToolResult): State {
    if Accepts(id, r) then Put(s.(tables := Remember(s.tables, id, r)), c, Returned(id, r))
    else Put(s, c, Raised(id, RESULT_INVALID))
  }

  function Next(s: State, step: Step): State
    requires Enabled(s, step)
  {
    match step
    case Arrive(c, id) => Put(s, c, Entering(id))
    case EnterStep(c) => AfterEnter(s, c, s.callers[c].identity)
    case Resolve(f, outcome) => s.(futures := s.futures[f := s.futures[f].(outcome := outcome)])
    case Resume(c) => AfterResume(s, c, s.callers[c])
    case CancelStep(c) =>
      var pc := s.callers[c];
      if pc.Awaiting? then AfterCancelled(s, c, pc)
      else if pc.Settling? then Put(s, c, Exiting(pc, pc.owner, TOOL_CANCELLED))
      else Put(s, c, Raised(pc.identity, TOOL_CANCELLED))
    case Settle(c) => Put(s, c, Exiting(s.callers[c], s.callers[c].owner, s.callers[c].failure))
    case LeaveStep(c) =>
      var pc := s.callers[c];
      Put(s.(tables := Release(s.tables, pc.identity.operation)), c,
          if pc.exit.Got? then Left(pc.identity, pc.future, pc.exit.result) else Raised(pc.identity, pc.exit.failure))
    case Finish(c) => AfterFinish(s, c, s.callers[c].identity, s.callers[c].result)
  }

  /** The state after any schedule; a step that is not enabled does not happen. */
  function Run(steps: seq<Step>): State {
    if steps == [] then START
    else
      var s := Run(steps[..|steps| - 1]);
      if Enabled(s, steps[|steps| - 1]) then Next(s, steps[|steps| - 1]) else s
  }

  // ---------------------------------------------------------------- invariants

  /** The result came from an upstream call made for this identity. */
  ghost predicate Obtained(futures: seq<Future>, id: Identity, r: ToolResult) {
    exists f | 0 <= f < |futures| :: futures[f].identity == id && futures[f].outcome == Done(r)
  }

  ghost predicate CallerOk(s: State, c: nat)
    requires c in s.callers
  {
    var pc := s.callers[c];
    var id := pc.identity;
    && (pc.Awaiting? || pc.Settling? || pc.Leaving? || pc.Left? ==>
          pc.future < |s.futures| && s.futures[pc.future].identity == id)
    && (pc.Leaving? && pc.exit.Got? ==> s.futures[pc.future].outcome == Done(pc.exit.result))
    && (pc.Left? ==> s.futures[pc.future].outcome == Done(pc.result))
    && (pc.Returned? ==> Accepts(id, pc.result) && Obtained(s.futures, id, pc.result))
    && (pc.Owns() ==> id.operation in s.tables.inflight && s.tables.inflight[id.operation] == Entry(id, pc.future, c))
  }

  ghost predicate EntryOk(s: State, op: nat)
    requires op in s.tables.inflight
  {
    var e := s.tables.inflight[op];
    && e.identity.operation == op && e.owner in s.callers && s.callers[e.owner].Owns()
    && s.callers[e.owner].identity == e.identity && s.callers[e.owner].future == e.future
    && e.future < |s.futures| && s.futures[e.future].identity == e.identity
  }

  ghost predicate CachedOk(s: State, op: nat)
    requires op in s.tables.dedup
  {
    var (id, r) := s.tables.dedup[op];
    id.operation == op && Accepts(id, r) && Obtained(s.futures, id, r)
  }

  ghost predicate Inv(s: State) {
    && Bounded(s.tables)
    && (forall c | c in s.callers :: CallerOk(s, c))
    && (forall op | op in s.tables.inflight :: EntryOk(s, op))
    && (forall op | op in s.tables.dedup :: CachedOk(s, op))
  }

  /** Upstream calls are only added, keep their identity, and once resolved stay as they are. */
  ghost predicate FuturesGrow(a: seq<Future>, b: seq<Future>) {
    |a| <= |b| && forall f | 0 <= f < |a| ::
      b[f].identity == a[f].identity && (a[f].outcome.Pending? || b[f].outcome == a[f].outcome)
  }

  lemma ObtainedGrows(a: seq<Future>, b: seq<Future>, id: Identity, r: ToolResult)
    requires Obtained(a, id, r) && FuturesGrow(a, b)
    ensures Obtained(b, id, r)
  {
    var f :| 0 <= f < |a| && a[f].identity == id && a[f].outcome == Done(r);
    assert b[f].identity == id && b[f].outcome == Done(r);
  }

  /** Everything but caller `c` and its own operation is kept by a step of `c` that changes neither table. */
  lemma CallerMoves(s: State, s': State, c: nat)
    requires Inv(s) && s'.tables == s.tables && FuturesGrow(s.futures, s'.futures)
    requires forall x | x in s.callers && x != c :: x in s'.callers && s'.callers[x] == s.callers[x]
    requires c in s'.callers && forall x | x in s'.callers :: x == c || x in s.callers
    requires CallerOk(s', c)
    requires c in s.callers && s.callers[c].Owns() ==>
               s'.callers[c].Owns() && s'.callers[c].identity == s.callers[c].identity
               && s'.callers[c].future == s.callers[c].future
    ensures Inv(s')
  {
    forall x | x in s'.callers ensures CallerOk(s', x) {
      if x != c {
        assert CallerOk(s, x);
        if s.callers[x].Returned? { ObtainedGrows(s.futures, s'.futures, s.callers[x].identity, s.callers[x].result); }
      }
    }
    forall op | op in s'.tables.inflight ensures EntryOk(s', op) {
      assert EntryOk(s, op);
    }
    CacheKept(s, s');
  }

  lemma CacheKept(s: State, s': State)
    requires Inv(s) && s'.tables.dedup == s.tables.dedup && FuturesGrow(s.futures, s'.futures)
    ensures forall op | op in s'.tables.dedup :: CachedOk(s', op)
  {
    forall op | op in s'.tables.dedup ensures CachedOk(s', op) {
      assert CachedOk(s, op);
      var (id, r) := s.tables.dedup[op];
      ObtainedGrows(s.futures, s'.futures, id, r);
    }
  }

  lemma OthersKept(s: State, s': State, c: nat)
    requires Inv(s) && FuturesGrow(s.futures, s'.futures) && c in s.callers
    requires c in s'.callers && s'.callers == s.callers[c := s'.callers[c]]
    requires forall op | op in s.tables.inflight && s.tables.inflight[op].owner != c ::
               op in s'.tables.inflight && s'.tables.inflight[op] == s.tables.inflight[op]
    ensures forall x | x in s'.callers && x != c :: CallerOk(s', x)
  {
    forall x | x in s'.callers && x != c ensures CallerOk(s', x) {
      assert CallerOk(s, x);
      if s.callers[x].Returned? { ObtainedGrows(s.futures, s'.futures, s.callers[x].identity, s.callers[x].result); }
    }
  }

  lemma StartedKeepsInv(s: State, c: nat)
    requires Inv(s) && c in s.callers && s.callers[c].Entering?
    requires s.callers[c].identity.operation !in s.tables.dedup && s.callers[c].identity.operation !in s.tables.inflight
    ensures Inv(AfterEnter(s, c, s.callers[c].identity))
  {
    hide Ordered;
    var id := s.callers[c].identity;
    var s' := AfterEnter(s, c, id);
    SameCache(s.tables, s'.tables);
    assert s'.futures[|s.futures|].identity == id;
    OthersKept(s, s', c);
    forall x | x in s'.tables.inflight ensures EntryOk(s', x) {
      if x != id.operation { assert EntryOk(s, x); }
    }
    CacheKept(s, s');
  }

  lemma EnterKeepsInv(s: State, c: nat)
    requires Inv(s) && Enabled(s, EnterStep(c))
    ensures Inv(Next(s, EnterStep(c)))
  {
    hide Inv;
    var id := s.callers[c].identity;
    var op := id.operation;
    if op in s.tables.dedup {
      assert CachedOk(s, op) by { OneCachedOk(s, op); }
      CallerMoves(s, Next(s, EnterStep(c)), c);
    } else if op in s.tables.inflight {
      assert EntryOk(s, op) by { OneEntryOk(s, op); }
      CallerMoves(s, Next(s, EnterStep(c)), c);
    } else {
      StartedKeepsInv(s, c);
    }
  }

  lemma OneCachedOk(s: State, op: nat)
    requires Inv(s) && op in s.tables.dedup
    ensures CachedOk(s, op)
  {
  }

  lemma OneEntryOk(s: State, op: nat)
    requires Inv(s) && op in s.tables.inflight
    ensures EntryOk(s, op)
  {
  }

  lemma ResolveKeepsInv(s: State, f: nat, outcome: UpstreamOutcome)
    requires Inv(s) && Enabled(s, Resolve(f, outcome))
    ensures Inv(Next(s, Resolve(f, outcome)))
  {
    var s' := Next(s, Resolve(f, outcome));
    forall x | x in s'.callers ensures CallerOk(s', x) {
      assert CallerOk(s, x);
      if s.callers[x].Returned? { ObtainedGrows(s.futures, s'.futures, s.callers[x].identity, s.callers[x].result); }
    }
    forall op | op in s'.tables.inflight ensures EntryOk(s', op) { assert EntryOk(s, op); }
    CacheKept(s, s');
  }

  /** Only the leaving caller owned the entry it drops. */
  lemma ReleaseKeepsOthers(s: State, c: nat, op: nat)
    requires Inv(s) && c in s.callers && s.callers[c].Leaving? && op in s.tables.inflight
    requires op != s.callers[c].identity.operation
    ensures s.tables.inflight[op].owner != c
  {
    OneEntryOk(s, op);
    OneCallerOk(s, c);
  }

  /** Leaving drops the entry that the caller itself started and no other, so that every entry still belongs to the
      unfinished caller that started it. */
  lemma LeaveKeepsInv(s: State, c: nat)
    requires Inv(s) && Enabled(s, LeaveStep(c))
    ensures Inv(Next(s, LeaveStep(c)))
    ensures var op, before, after := s.callers[c].identity.operation, s.tables.inflight,
                                     Next(s, LeaveStep(c)).tables.inflight;
            && op in before && before[op].owner == c && op !in after
            && forall x :: x in after <==> x in before && before[x].owner != c
  {
    hide Bounded;
    var s' := Next(s, LeaveStep(c));
    var op := s.callers[c].identity.operation;
    SameCache(s.tables, s'.tables);
    OneCallerOk(s, c);
    forall x | x in s'.tables.inflight ensures EntryOk(s', x) {
      OneEntryOk(s, x);
      ReleaseKeepsOthers(s, c, x);
    }
    OthersKept(s, s', c);
    CacheKept(s, s');
    forall x | x in s.tables.inflight && s.tables.inflight[x].owner == c ensures x == op {
      if x != op { ReleaseKeepsOthers(s, c, x); }
    }
  }

  lemma KeptResultKeepsInv(s: State, c: nat, id: Identity, r: ToolResult)
    requires Inv(s) && c in s.callers && s.callers[c].Left? && s.callers[c].identity == id && s.callers[c].result == r
    requires Accepts(id, r)
    ensures Inv(AfterFinish(s, c, id, r))
  {
    hide Remember, Accepts, Bounded;
    var s' := AfterFinish(s, c, id, r);
    OneCallerOk(s, c);
    assert Obtained(s.futures, id, r);
    RememberBounded(s.tables, id, r);
    OthersKept(s, s', c);
    forall op | op in s'.tables.inflight ensures EntryOk(s', op) { OneEntryOk(s, op); }
    forall op | op in s'.tables.dedup ensures CachedOk(s', op) {
      if op != id.operation { OneCachedOk(s, op); }
    }
  }

  lemma FinishKeepsInv(s: State, c: nat)
    requires Inv(s) && Enabled(s, Finish(c))
    ensures Inv(Next(s, Finish(c)))
  {
    hide Inv, Remember, Accepts;
    var pc := s.callers[c];
    if Accepts(pc.identity, pc.result) {
      KeptResultKeepsInv(s, c, pc.identity, pc.result);
    } else {
      CallerMoves(s, Next(s, Finish(c)), c);
    }
  }

  lemma ResumeKeepsInv(s: State, c: nat)
    requires Inv(s) && Enabled(s, Resume(c))
    ensures Inv(Next(s, Resume(c))) && FuturesGrow(s.futures, Next(s, Resume(c)).futures)
  {
    hide Bounded, Inv;
    assert CallerOk(s, c) by { OneCallerOk(s, c); }
    CallerMoves(s, Next(s, Resume(c)), c);
  }

  lemma CancelKeepsInv(s: State, c: nat)
    requires Inv(s) && Enabled(s, CancelStep(c))
    ensures Inv(Next(s, CancelStep(c))) && FuturesGrow(s.futures, Next(s, CancelStep(c)).futures)
  {
    hide Bounded, Inv;
    assert CallerOk(s, c) by { OneCallerOk(s, c); }
    CallerMoves(s, Next(s, CancelStep(c)), c);
  }

  lemma SettleKeepsInv(s: State, c: nat)
    requires Inv(s) && Enabled(s, Settle(c))
    ensures Inv(Next(s, Settle(c)))
  {
    hide Bounded, Inv;
    assert CallerOk(s, c) by { OneCallerOk(s, c); }
    CallerMoves(s, Next(s, Settle(c)), c);
  }

  lemma OneCallerOk(s: State, c: nat)
    requires Inv(s) && c in s.callers
    ensures CallerOk(s, c)
  {
  }

  lemma FuturesOfNext(s: State, step: Step)
    requires Enabled(s, step)
    ensures FuturesGrow(s.futures, Next(s, step).futures)
  {
  }

  lemma NextKeepsInv(s: State, step: Step)
    requires Inv(s) && Enabled(s, step)
    ensures Inv(Next(s, step)) && FuturesGrow(s.futures, Next(s, step).futures)
  {
    hide Inv, Next, Enabled;
    FuturesOfNext(s, step);
    match step {
      case EnterStep(c) => EnterKeepsInv(s, c);
      case Resolve(f, outcome) => ResolveKeepsInv(s, f, outcome);
      case LeaveStep(c) => LeaveKeepsInv(s, c);
      case Finish(c) => FinishKeepsInv(s, c);
      case Arrive(c, id) => ArriveKeepsInv(s, c, id);
      case Resume(c) => ResumeKeepsInv(s, c);
      case CancelStep(c) => CancelKeepsInv(s, c);
      case Settle(c) => SettleKeepsInv(s, c);
    }
  }

  lemma ArriveKeepsInv(s: State, c: nat, id: Identity)
    requires Inv(s) && Enabled(s, Arrive(c, id))
    ensures Inv(Next(s, Arrive(c, id)))
  {
    CallerMoves(s, Next(s, Arrive(c, id)), c);
  }

  lemma {:induction false} RunKeepsInv(steps: seq<Step>)
    ensures Inv(Run(steps))
  {
    hide Next, Inv, Enabled;
    if steps == [] {
      StartInv();
    } else {
      var before := Run(steps[..|steps| - 1]);
      RunKeepsInv(steps[..|steps| - 1]);
      if Enabled(before, steps[|steps| - 1]) { NextKeepsInv(before, steps[|steps| - 1]); }
    }
  }

  lemma StartInv()
    ensures Inv(START)
  {
  }

  // ---------------------------------------------------------------- what holds in every interleaving

  /** A caller only ever receives a validated result of an upstream call made with its own full identity. */
  lemma ReturnedResultsAreOwn(steps: seq<Step>, c: nat)
    requires c in Run(steps).callers && Run(steps).callers[c].Returned?
    ensures var s := Run(steps);
            Accepts(s.callers[c].identity, s.callers[c].result)
            && Obtained(s.futures, s.callers[c].identity, s.callers[c].result)
  {
    RunKeepsInv(steps);
    assert CallerOk(Run(steps), c);
  }

  /** While an operation is cached or in flight, a caller with another identity under it is refused, and one with the
      same identity is given the cached result or the upstream call made for that identity. */
  lemma KnownOperations(steps: seq<Step>, c: nat)
    requires Enabled(Run(steps), EnterStep(c))
    ensures var s := Run(steps);
            var id := s.callers[c].identity;
            var op := id.operation;
            var s' := Next(s, EnterStep(c));
            && (op in s.tables.dedup || op in s.tables.inflight ==> s'.futures == s.futures && s'.tables == s.tables)
            && (op in s.tables.dedup ==>
                  s'.callers[c] == if s.tables.dedup[op].0 == id then Returned(id, s.tables.dedup[op].1)
                                   else Raised(id, OPERATION_CONFLICT))
            && (op !in s.tables.dedup && op in s.tables.inflight ==>
                  if s.tables.inflight[op].identity == id
                  then s'.callers[c] == Awaiting(id, s.tables.inflight[op].future, false)
                       && s.tables.inflight[op].future < |s.futures|
                       && s.futures[s.tables.inflight[op].future].identity == id
                  else s'.callers[c] == Raised(id, OPERATION_CONFLICT))
            && (op !in s.tables.dedup && op !in s.tables.inflight ==>
                  |s'.futures| == |s.futures| + 1 && s'.tables.inflight[op].owner == c)
  {
    RunKeepsInv(steps);
    var s := Run(steps);
    var op := s.callers[c].identity.operation;
    if op in s.tables.inflight { assert EntryOk(s, op); }
  }

  predicate Known(s: State, op: nat) { op in s.tables.dedup || op in s.tables.inflight }

  /** The upstream calls made for an operation so far. */
  ghost function CallsFor(s: State, op: nat): set<nat> {
    set f | 0 <= f < |s.futures| && s.futures[f].identity.operation == op
  }

  /** A step starts an upstream call for an operation exactly when a caller enters with it while it is neither cached
      nor in flight. */
  lemma CallStartsIff(s: State, step: Step, op: nat)
    requires Enabled(s, step)
    ensures CallsFor(Next(s, step), op)
         == CallsFor(s, op)
            + if step.EnterStep? && s.callers[step.caller].identity.operation == op && !Known(s, op)
              then {|s.futures|} else {}
  {
    var s' := Next(s, step);
    assert forall f | 0 <= f < |s.futures| :: s'.futures[f].identity == s.futures[f].identity;
  }

  /** Between two points of a schedule, no upstream call for an operation is started as long as it stays cached or in
      flight. */
  lemma {:induction false} NoCallWhileKnown(steps: seq<Step>, i: nat, op: nat)
    requires i <= |steps| && forall k | i <= k < |steps| :: Known(Run(steps[..k]), op)
    ensures CallsFor(Run(steps), op) == CallsFor(Run(steps[..i]), op)
    decreases |steps|
  {
    hide Next, Enabled, CallsFor, Known;
    if i == |steps| {
      assert steps[..i] == steps;
    } else {
      var n := |steps| - 1;
      var before := Run(steps[..n]);
      assert steps[..n][..i] == steps[..i];
      forall k | i <= k < n ensures Known(Run(steps[..n][..k]), op) { assert steps[..n][..k] == steps[..k]; }
      NoCallWhileKnown(steps[..n], i, op);
      if Enabled(before, steps[n]) { CallStartsIff(before, steps[n], op); }
    }
  }

  /** An entry of the in-flight table disappears or changes only when its creator leaves. */
  lemma OnlyTheCreatorRemoves(steps: seq<Step>, step: Step, op: nat)
    requires Enabled(Run(steps), step) && op in Run(steps).tables.inflight
    requires var after := Next(Run(steps), step).tables.inflight;
             op !in after || after[op] != Run(steps).tables.inflight[op]
    ensures step == LeaveStep(Run(steps).tables.inflight[op].owner)
  {
    hide Run, Inv, Bounded;
    RunKeepsInv(steps);
    var s := Run(steps);
    if !step.EnterStep? && !step.LeaveStep? { TablesOfNext(s, step); }
    if step.LeaveStep? { OneCallerOk(s, step.caller); }
  }

  lemma TablesOfNext(s: State, step: Step)
    requires Enabled(s, step) && !step.EnterStep? && !step.LeaveStep?
    ensures Next(s, step).tables.inflight == s.tables.inflight
  {
  }

  /** No entry outlives the caller that created it; when every caller is done the table is empty. */
  lemma NoEntryOutlivesItsCreator(steps: seq<Step>)
    ensures var s := Run(steps);
            && (forall op | op in s.tables.inflight ::
                  s.tables.inflight[op].owner in s.callers && !s.callers[s.tables.inflight[op].owner].Finished())
            && ((forall c | c in s.callers :: s.callers[c].Finished()) ==> s.tables.inflight == map[])
  {
    RunKeepsInv(steps);
    var s := Run(steps);
    forall op | op in s.tables.inflight
      ensures s.tables.inflight[op].owner in s.callers && !s.callers[s.tables.inflight[op].owner].Finished()
    {
      assert EntryOk(s, op);
    }
  }

  /** The cache never holds more than 1024 results. */
  lemma CacheIsBounded(steps: seq<Step>)
    ensures |Run(steps).tables.dedup| <= MAX_DEDUP_ENTRIES
  {
    RunKeepsInv(steps);
    OrderedCount(Run(steps).tables);
  }

  /** At most one caller at a time has started an operation and not yet left it. */
  lemma OneOwnerPerOperation(steps: seq<Step>, a: nat, b: nat)
    requires var s := Run(steps);
             a in s.callers && b in s.callers && s.callers[a].Owns() && s.callers[b].Owns()
             && s.callers[a].identity.operation == s.callers[b].identity.operation
    ensures a == b
  {
    RunKeepsInv(steps);
    assert CallerOk(Run(steps), a) && CallerOk(Run(steps), b);
  }
}
