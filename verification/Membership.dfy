/** Interventions on the membership of a session: who takes part in which round. */
module Membership {
  import opened Options
  import opened Sorting

  /** A version of a logical agent. */
  datatype Definition = Definition(id: nat, logical: nat, version: nat)
  datatype Registered = Registered(definition: Definition, active: bool)

  datatype Kind = Replace(replaced: nat) | Inject

  /** `details` stands for actor, correlation, reason and time. */
  datatype Intervention = Intervention(event: nat, kind: Kind, agent: nat, effective: nat, details: nat)

  /** The validator of an intervention. */
  predicate WellFormed(q: Intervention) { q.effective >= 1 && (q.kind.Replace? ==> q.kind.replaced != q.agent) }

  /** A stored intervention and the ledger position of its event. */
  datatype Row = Row(intervention: Intervention, ledgerSeq: nat)

  /** `events` holds the identities of all events in the ledger of the session. */
  datatype State = State(
    initial: seq<Definition>, rows: seq<Row>, round: nat, terminal: bool, registry: map<nat, Registered>,
    events: set<nat>, nextSeq: nat)

  // ---------------------------------------------------------------- effective membership

  function Effective(rows: seq<Row>, round: nat): seq<Row> {
    if rows == [] then []
    else
      var n := |rows| - 1;
      Effective(rows[..n], round) + if rows[n].intervention.effective <= round then [rows[n]] else []
  }

  /** The order of the membership query: by effective round, then by ledger position. */
  function ByRoundAndSeq(): (Row, Row) -> bool {
    (x: Row, y: Row) =>
      x.intervention.effective < y.intervention.effective
      || (x.intervention.effective == y.intervention.effective && x.ledgerSeq <= y.ledgerSeq)
  }

  function IndexOf(members: seq<Definition>, id: nat): Option<nat> {
    if members == [] then None
    else if members[0].id == id then Some(0)
    else
      var i := IndexOf(members[1..], id);
      if i.Some? then Some(i.value + 1) else None
  }

  lemma {:induction false} IndexOfMember(members: seq<Definition>, id: nat)
    ensures IndexOf(members, id).Some? ==>
              IndexOf(members, id).value < |members| && members[IndexOf(members, id).value].id == id
    ensures IndexOf(members, id).None? ==> forall i | 0 <= i < |members| :: members[i].id != id
  {
    if members != [] {
      IndexOfMember(members[1..], id);
      if IndexOf(members, id).None? {
        forall i | 0 <= i < |members| ensures members[i].id != id {
          if i > 0 { assert members[i] == members[1..][i - 1]; }
        }
      }
    }
  }

  /** What one intervention does to the members; replacing someone who is not a member is an integrity error. */
  function Change(members: Option<seq<Definition>>, q: Intervention, registry: map<nat, Registered>)
    : Option<seq<Definition>>
  {
    if members.None? || q.agent !in registry then None
    else
      var d := registry[q.agent].definition;
      match q.kind
      case Inject => Some(members.value + [d])
      case Replace(replaced) =>
        var i := IndexOf(members.value, replaced);
        IndexOfMember(members.value, replaced);
        if i.None? then None else Some(members.value[i.value := d])
  }

  function Fold(initial: seq<Definition>, rows: seq<Row>, registry: map<nat, Registered>): Option<seq<Definition>> {
    if rows == [] then Some(initial)
    else Change(Fold(initial, rows[..|rows| - 1], registry), rows[|rows| - 1].intervention, registry)
  }

  function Members(s: State, round: nat): Option<seq<Definition>> {
    Fold(s.initial, Sort(ByRoundAndSeq(), Effective(s.rows, round)), s.registry)
  }

  /** One version of each logical agent, and at least one agent. */
  predicate ValidMembers(members: seq<Definition>) {
    members != [] && forall i, j | 0 <= i < j < |members| :: members[i].logical != members[j].logical
  }

  function Snapshot(s: State, round: nat): Option<seq<Definition>> {
    var members := Members(s, round);
    if members.Some? && ValidMembers(members.value) then members else None
  }

  // ---------------------------------------------------------------- the command

  datatype Reason = MALFORMED | REUSED_EVENT | SESSION_ENDED | WRONG_ROUND | REPLACE_TOO_LATE | INJECT_TOO_EARLY
                  | AGENT_NOT_ACTIVE | MEMBERSHIP_INVALID | NOT_EFFECTIVE | SECOND_VERSION | LEDGER_CONFLICT

  datatype Answer = Accepted(state: State, members: seq<Definition>) | Rejected(reason: Reason)

  function Prior(rows: seq<Row>, event: nat): Option<Intervention> {
    if rows == [] then None
    else if rows[0].intervention.event == event then Some(rows[0].intervention)
    else Prior(rows[1..], event)
  }

  /** Only one version of a logical agent may remain. */
  predicate KeepsOneVersion(members: seq<Definition>, q: Intervention, d: Definition) {
    match q.kind
    case Inject => forall i | 0 <= i < |members| :: members[i].logical != d.logical
    case Replace(replaced) =>
      && (exists i | 0 <= i < |members| :: members[i].id == replaced)
      && forall i | 0 <= i < |members| && members[i].id != replaced :: members[i].logical != d.logical
  }

  /** Everything a new intervention has to meet. */
  predicate Admissible(s: State, q: Intervention) {
    && WellFormed(q) && !s.terminal && q.effective == s.round + 1
    && (q.kind.Replace? ==> s.round == 0) && (q.kind.Inject? ==> s.round > 0)
    && q.agent in s.registry && s.registry[q.agent].active
    && Snapshot(s, q.effective).Some?
    && KeepsOneVersion(Snapshot(s, q.effective).value, q, s.registry[q.agent].definition)
    && q.event !in s.events
  }

  predicate IsMember(members: seq<Definition>, id: nat) { exists i | 0 <= i < |members| :: members[i].id == id }

  /** The first of these demands that an intervention misses. */
  function Refusal(s: State, q: Intervention): (r: Option<Reason>)
    ensures r.None? <==> Admissible(s, q)
  {
    if !WellFormed(q) then Some(MALFORMED)
    else if s.terminal then Some(SESSION_ENDED)
    else if q.effective != s.round + 1 then Some(WRONG_ROUND)
    else if q.kind.Replace? && s.round != 0 then Some(REPLACE_TOO_LATE)
    else if q.kind.Inject? && s.round == 0 then Some(INJECT_TOO_EARLY)
    else if q.agent !in s.registry || !s.registry[q.agent].active then Some(AGENT_NOT_ACTIVE)
    else if Snapshot(s, q.effective).None? then Some(MEMBERSHIP_INVALID)
    else
      var members, d := Snapshot(s, q.effective).value, s.registry[q.agent].definition;
      if q.kind.Replace? && !IsMember(members, q.kind.replaced) then Some(NOT_EFFECTIVE)
      else if !KeepsOneVersion(members, q, d) then Some(SECOND_VERSION)
      else if q.event in s.events then Some(LEDGER_CONFLICT)
      else None
  }

  function Store(s: State, q: Intervention): State {
    s.(rows := s.rows + [Row(q, s.nextSeq)], events := s.events + {q.event}, nextSeq := s.nextSeq + 1)
  }

  function Answered(s: State, members: Option<seq<Definition>>): Answer {
    if members.Some? then Accepted(s, members.value) else Rejected(MEMBERSHIP_INVALID)
  }

  function Apply(s: State, q: Intervention): Answer {
    var prior := Prior(s.rows, q.event);
    if !WellFormed(q) then Rejected(MALFORMED)
    else if prior.Some? then
      if prior.value == q then Answered(s, Snapshot(s, q.effective)) else Rejected(REUSED_EVENT)
    else if Refusal(s, q).Some? then Rejected(Refusal(s, q).value)
    else Answered(Store(s, q), Snapshot(Store(s, q), q.effective))
  }

  // ---------------------------------------------------------------- runs

  /** Besides interventions: rounds advance by at most one and sessions end, other events are appended, definitions are
      registered once and are activated or deactivated. Each new event takes a ledger position; an event identity that
      is taken has no effect. */
  datatype Action =
    | Intervene(request: Intervention)
    | Advance(round: nat, ends: bool, event: nat)
    | Note(event: nat)
    | Register(definition: Definition)
    | SetActive(id: nat, active: bool)

  function Act(s: State, a: Action): State {
    match a
    case Intervene(q) => if Apply(s, q).Accepted? then Apply(s, q).state else s
    case Advance(round, ends, event) =>
      if !s.terminal && s.round <= round <= s.round + 1 && event !in s.events
      then s.(round := round, terminal := ends, events := s.events + {event}, nextSeq := s.nextSeq + 1) else s
    case Note(event) =>
      if event in s.events then s else s.(events := s.events + {event}, nextSeq := s.nextSeq + 1)
    case Register(d) => if d.id in s.registry then s else s.(registry := s.registry[d.id := Registered(d, true)])
    case SetActive(id, active) =>
      if id in s.registry then s.(registry := s.registry[id := s.registry[id].(active := active)]) else s
  }

  function Run(start: State, actions: seq<Action>): State {
    if actions == [] then start else Act(Run(start, actions[..|actions| - 1]), actions[|actions| - 1])
  }

  /** Members are registered definitions, and definitions never change. */
  predicate FromRegistry(members: seq<Definition>, registry: map<nat, Registered>) {
    forall i | 0 <= i < |members| :: members[i].id in registry && registry[members[i].id].definition == members[i]
  }

  predicate RegistryOk(registry: map<nat, Registered>) {
    forall id | id in registry :: registry[id].definition.id == id
  }

  /** A session before its first round. */
  predicate Fresh(s: State) {
    && s.rows == [] && s.round == 0 && !s.terminal && ValidMembers(s.initial)
    && FromRegistry(s.initial, s.registry) && RegistryOk(s.registry)
  }

  // ---------------------------------------------------------------- invariants

  ghost predicate RowsOrdered(s: State) {
    && (forall i, j | 0 <= i < j < |s.rows| ::
          && s.rows[i].intervention.effective <= s.rows[j].intervention.effective
          && s.rows[i].ledgerSeq < s.rows[j].ledgerSeq)
    && (forall i | 0 <= i < |s.rows| ::
          && s.rows[i].intervention.effective <= s.round + 1 && s.rows[i].ledgerSeq < s.nextSeq
          && s.rows[i].intervention.agent in s.registry && s.rows[i].intervention.event in s.events
          && WellFormed(s.rows[i].intervention))
  }

  ghost predicate EveryRoundValid(s: State) {
    forall r: nat :: Snapshot(s, r).Some? && FromRegistry(Snapshot(s, r).value, s.registry)
  }

  ghost predicate Inv(s: State) { RowsOrdered(s) && EveryRoundValid(s) && RegistryOk(s.registry) }

  lemma {:induction false} EffectiveIsOrdered(rows: seq<Row>, round: nat)
    requires Sorted(ByRoundAndSeq(), rows)
    ensures Sorted(ByRoundAndSeq(), Effective(rows, round))
    ensures forall x | x in Effective(rows, round) :: x in rows
  {
    if rows != [] {
      var n := |rows| - 1;
      EffectiveIsOrdered(rows[..n], round);
      assert forall x | x in rows[..n] :: x in rows;
      forall x | x in Effective(rows[..n], round) ensures ByRoundAndSeq()(x, rows[n]) {
        assert x in rows[..n];
        var i :| 0 <= i < n && rows[..n][i] == x;
        assert rows[i] == x;
      }
    }
  }

  lemma {:induction false} AllEffective(rows: seq<Row>, round: nat)
    requires forall i | 0 <= i < |rows| :: rows[i].intervention.effective <= round
    ensures Effective(rows, round) == rows
  {
    if rows != [] { AllEffective(rows[..|rows| - 1], round); }
  }

  /** Under the invariant the query order is the append order. */
  lemma QueryOrderIsAppendOrder(s: State, round: nat)
    requires RowsOrdered(s)
    ensures Sorted(ByRoundAndSeq(), s.rows)
    ensures Sort(ByRoundAndSeq(), Effective(s.rows, round)) == Effective(s.rows, round)
    ensures Members(s, round) == Fold(s.initial, Effective(s.rows, round), s.registry)
    ensures round > s.round ==> Members(s, round) == Fold(s.initial, s.rows, s.registry)
  {
    EffectiveIsOrdered(s.rows, round);
    SortOfSorted(ByRoundAndSeq(), Effective(s.rows, round));
    if round > s.round { AllEffective(s.rows, round); }
  }

  /** Replacing or adding an agent under the guard keeps one version per logical agent. */
  lemma ChangeKeepsValid(members: seq<Definition>, q: Intervention, registry: map<nat, Registered>)
    requires ValidMembers(members) && FromRegistry(members, registry) && RegistryOk(registry) && q.agent in registry
    requires KeepsOneVersion(members, q, registry[q.agent].definition)
    ensures var after := Change(Some(members), q, registry);
            after.Some? && ValidMembers(after.value) && FromRegistry(after.value, registry)
  {
    if q.kind.Replace? {
      IndexOfMember(members, q.kind.replaced);
      var i := IndexOf(members, q.kind.replaced).value;
      forall k | 0 <= k < |members| && k != i ensures members[k].id != q.kind.replaced {
        assert members[k].logical != members[i].logical;
      }
    }
  }

  lemma {:induction false} FoldIgnoresActivation(
    initial: seq<Definition>, rows: seq<Row>, a: map<nat, Registered>, b: map<nat, Registered>)
    requires forall i | 0 <= i < |rows| :: rows[i].intervention.agent in a && rows[i].intervention.agent in b
               && a[rows[i].intervention.agent].definition == b[rows[i].intervention.agent].definition
    ensures Fold(initial, rows, a) == Fold(initial, rows, b)
  {
    if rows != [] { FoldIgnoresActivation(initial, rows[..|rows| - 1], a, b); }
  }

  /** What a state keeps of an earlier one as far as started rounds are concerned. */
  ghost predicate Extends(s: State, t: State) {
    && t.initial == s.initial && s.rows <= t.rows && s.round <= t.round
    && (forall id | id in s.registry :: id in t.registry && t.registry[id].definition == s.registry[id].definition)
    && (forall i | |s.rows| <= i < |t.rows| :: t.rows[i].intervention.effective > s.round)
  }

  lemma {:induction false} LaterRowsNotEffective(rows: seq<Row>, n: nat, round: nat)
    requires n <= |rows| && forall i | n <= i < |rows| :: rows[i].intervention.effective > round
    ensures Effective(rows, round) == Effective(rows[..n], round)
    decreases |rows|
  {
    if n < |rows| {
      assert rows[..|rows| - 1][..n] == rows[..n];
      LaterRowsNotEffective(rows[..|rows| - 1], n, round);
    } else {
      assert rows[..n] == rows;
    }
  }

  /** Rounds already started have the same members before and after. */
  lemma StartedRoundsKept(s: State, t: State, round: nat)
    requires RowsOrdered(s) && RowsOrdered(t) && Extends(s, t) && round <= s.round
    ensures Snapshot(t, round) == Snapshot(s, round)
  {
    QueryOrderIsAppendOrder(s, round);
    QueryOrderIsAppendOrder(t, round);
    assert t.rows[..|s.rows|] == s.rows;
    LaterRowsNotEffective(t.rows, |s.rows|, round);
    var rows := Effective(s.rows, round);
    EffectiveIsOrdered(s.rows, round);
    forall i | 0 <= i < |rows|
      ensures rows[i].intervention.agent in s.registry && rows[i].intervention.agent in t.registry
              && s.registry[rows[i].intervention.agent].definition == t.registry[rows[i].intervention.agent].definition
    {
      assert rows[i] in rows;
      var k :| 0 <= k < |s.rows| && s.rows[k] == rows[i];
    }
    FoldIgnoresActivation(s.initial, rows, s.registry, t.registry);
  }

  // ---------------------------------------------------------------- preservation

  lemma StoreKeepsOrder(s: State, q: Intervention)
    requires RowsOrdered(s) && q.effective == s.round + 1 && q.agent in s.registry && WellFormed(q)
    ensures RowsOrdered(Store(s, q)) && Extends(s, Store(s, q))
    ensures Store(s, q).rows[..|s.rows|] == s.rows
  {
  }

  /** The new intervention is the last one applied in every round that has not started. */
  lemma StoredChange(s: State, q: Intervention, round: nat)
    requires RowsOrdered(s) && q.effective == s.round + 1 && q.agent in s.registry && WellFormed(q)
    requires round > s.round
    ensures Members(Store(s, q), round) == Change(Members(s, q.effective), q, s.registry)
  {
    hide Members, Change, RowsOrdered;
    var t := Store(s, q);
    StoreKeepsOrder(s, q);
    QueryOrderIsAppendOrder(s, q.effective);
    QueryOrderIsAppendOrder(t, round);
  }

  lemma StoreKeepsInv(s: State, q: Intervention)
    requires Inv(s) && Admissible(s, q)
    ensures Inv(Store(s, q)) && Extends(s, Store(s, q))
    ensures Snapshot(Store(s, q), q.effective) == Change(Snapshot(s, q.effective), q, s.registry)
  {
    hide Members, Change, RowsOrdered, Extends, KeepsOneVersion, FromRegistry, ValidMembers;
    var t := Store(s, q);
    StoreKeepsOrder(s, q);
    var members := Snapshot(s, q.effective).value;
    ChangeKeepsValid(members, q, s.registry);
    forall r: nat
      ensures Snapshot(t, r).Some? && FromRegistry(Snapshot(t, r).value, t.registry)
      ensures r == q.effective ==> Snapshot(t, r) == Change(Some(members), q, s.registry)
    {
      if r <= s.round { StartedRoundsKept(s, t, r); } else { StoredChange(s, q, r); }
    }
  }

  lemma {:induction false} ResendIsKnown(rows: seq<Row>, i: nat)
    requires i < |rows|
    ensures Prior(rows, rows[i].intervention.event).Some?
  {
    if i > 0 && rows[0].intervention.event != rows[i].intervention.event { ResendIsKnown(rows[1..], i - 1); }
  }

  lemma {:induction false} PriorIsStored(rows: seq<Row>, event: nat)
    requires Prior(rows, event).Some?
    ensures exists i | 0 <= i < |rows| :: rows[i].intervention == Prior(rows, event).value
  {
    if rows[0].intervention.event == event {
      assert rows[0].intervention == Prior(rows, event).value;
    } else {
      PriorIsStored(rows[1..], event);
      var i :| 0 <= i < |rows[1..]| && rows[1..][i].intervention == Prior(rows, event).value;
      assert rows[i + 1].intervention == Prior(rows, event).value;
    }
  }

  lemma ActKeepsInv(s: State, a: Action)
    requires Inv(s)
    ensures Inv(Act(s, a)) && Extends(s, Act(s, a))
  {
    hide Snapshot, KeepsOneVersion;
    var t := Act(s, a);
    if a.Intervene? {
      if Prior(s.rows, a.request.event).None? && Admissible(s, a.request) { StoreKeepsInv(s, a.request); }
    } else {
      forall r: nat ensures Snapshot(t, r) == Snapshot(s, r) && FromRegistry(Snapshot(t, r).value, t.registry) {
        SameRowsSameMembers(s, t, r);
      }
    }
  }

  lemma SameRowsSameMembers(s: State, t: State, r: nat)
    requires Inv(s) && t.rows == s.rows && t.initial == s.initial && s.round <= t.round && s.nextSeq <= t.nextSeq
    requires s.events <= t.events
    requires forall id | id in s.registry :: id in t.registry && t.registry[id].definition == s.registry[id].definition
    ensures Snapshot(t, r) == Snapshot(s, r)
  {
    hide Sort;
    assert RowsOrdered(t);
    QueryOrderIsAppendOrder(s, r);
    QueryOrderIsAppendOrder(t, r);
    var rows := Effective(s.rows, r);
    EffectiveIsOrdered(s.rows, r);
    forall i | 0 <= i < |rows|
      ensures rows[i].intervention.agent in s.registry && rows[i].intervention.agent in t.registry
              && s.registry[rows[i].intervention.agent].definition == t.registry[rows[i].intervention.agent].definition
    {
      assert rows[i] in rows;
      var k :| 0 <= k < |s.rows| && s.rows[k] == rows[i];
    }
    FoldIgnoresActivation(s.initial, rows, s.registry, t.registry);
  }

  lemma ExtendsTransitive(s: State, t: State, u: State)
    requires Extends(s, t) && Extends(t, u)
    ensures Extends(s, u)
  {
    forall i | |s.rows| <= i < |u.rows| ensures u.rows[i].intervention.effective > s.round {
      if i < |t.rows| { assert u.rows[i] == t.rows[i]; }
    }
  }

  lemma FreshInv(start: State)
    requires Fresh(start)
    ensures Inv(start)
  {
  }

  lemma {:induction false} RunKeepsInv(start: State, actions: seq<Action>)
    requires Fresh(start)
    ensures Inv(Run(start, actions))
  {
    hide Inv, Act;
    if actions == [] {
      FreshInv(start);
    } else {
      RunKeepsInv(start, actions[..|actions| - 1]);
      ActKeepsInv(Run(start, actions[..|actions| - 1]), actions[|actions| - 1]);
    }
  }

  lemma {:induction false} RunExtends(start: State, actions: seq<Action>, i: nat)
    requires Fresh(start) && i <= |actions|
    ensures Extends(Run(start, actions[..i]), Run(start, actions))
    decreases |actions|
  {
    hide Inv, Act;
    if i == |actions| {
      assert actions[..i] == actions;
    } else {
      var n := |actions| - 1;
      RunExtends(start, actions[..n], i);
      assert actions[..n][..i] == actions[..i];
      RunKeepsInv(start, actions[..n]);
      ActKeepsInv(Run(start, actions[..n]), actions[n]);
      ExtendsTransitive(Run(start, actions[..i]), Run(start, actions[..n]), Run(start, actions));
    }
  }

  // ---------------------------------------------------------------- every run

  /** In every reachable state, every round has members, and never two versions of one logical agent. */
  lemma OneVersionPerRound(start: State, actions: seq<Action>, round: nat)
    requires Fresh(start)
    ensures Snapshot(Run(start, actions), round).Some?
    ensures ValidMembers(Snapshot(Run(start, actions), round).value)
    ensures forall k | 0 <= k < |Run(start, actions).rows| ::
              Run(start, actions).rows[k].intervention.effective <= Run(start, actions).round + 1
  {
    RunKeepsInv(start, actions);
  }

  /** Whatever happens after step `i` of a run, the members of a round that had started by then do not change. */
  lemma StartedRoundsAreFixed(start: State, actions: seq<Action>, i: nat, round: nat)
    requires Fresh(start) && i <= |actions| && round <= Run(start, actions[..i]).round
    ensures Snapshot(Run(start, actions), round) == Snapshot(Run(start, actions[..i]), round)
  {
    RunKeepsInv(start, actions);
    RunKeepsInv(start, actions[..i]);
    RunExtends(start, actions, i);
    StartedRoundsKept(Run(start, actions[..i]), Run(start, actions), round);
  }

  /** Re-sending the event identity of a stored intervention changes nothing: with equal content it returns the members
      of its round, with other content it is refused. */
  lemma ResendChangesNothing(start: State, actions: seq<Action>, k: nat, q: Intervention)
    requires Fresh(start) && k < |Run(start, actions).rows|
    requires q.event == Run(start, actions).rows[k].intervention.event
    ensures var s := Run(start, actions);
            && Act(s, Intervene(q)) == s
            && (Apply(s, q).Accepted? <==> Prior(s.rows, q.event) == Some(q))
            && (WellFormed(q) && !Apply(s, q).Accepted? ==> Apply(s, q) == Rejected(REUSED_EVENT))
            && (Apply(s, q).Accepted? ==> Some(Apply(s, q).members) == Snapshot(s, q.effective))
  {
    RunKeepsInv(start, actions);
    ResendIsKnown(Run(start, actions).rows, k);
    PriorIsStored(Run(start, actions).rows, q.event);
  }

  /** Any accepted intervention is kept: sending it again after the rest of the run is accepted and changes nothing. */
  lemma AcceptedStaysAccepted(start: State, actions: seq<Action>, i: nat)
    requires Fresh(start) && i < |actions| && actions[i].Intervene?
    requires Apply(Run(start, actions[..i]), actions[i].request).Accepted?
    ensures var end := Run(start, actions);
            Apply(end, actions[i].request).Accepted? && Apply(end, actions[i].request).state == end
  {
    hide Inv, Act, Refusal, Snapshot;
    var q := actions[i].request;
    var s := Run(start, actions[..i]);
    assert actions[..i + 1][..i] == actions[..i];
    var t := Run(start, actions[..i + 1]);
    ApplyStores(s, q);
    RunExtends(start, actions, i + 1);
    PriorKept(t.rows, Run(start, actions).rows, q.event);
    RunKeepsInv(start, actions);
    SnapshotExists(Run(start, actions), q.effective);
  }

  lemma SnapshotExists(s: State, round: nat)
    requires Inv(s)
    ensures Snapshot(s, round).Some?
  {
  }

  lemma ApplyStores(s: State, q: Intervention)
    requires Apply(s, q).Accepted?
    ensures Prior(Act(s, Intervene(q)).rows, q.event) == Some(q)
  {
    hide Snapshot, Refusal;
    if Prior(s.rows, q.event).None? { PriorAppend(s.rows, Row(q, s.nextSeq)); }
  }

  lemma {:induction false} PriorAppend(rows: seq<Row>, row: Row)
    requires Prior(rows, row.intervention.event).None?
    ensures Prior(rows + [row], row.intervention.event) == Some(row.intervention)
  {
    if rows != [] {
      assert (rows + [row])[1..] == rows[1..] + [row];
      PriorAppend(rows[1..], row);
    }
  }

  lemma {:induction false} PriorKept(rows: seq<Row>, more: seq<Row>, event: nat)
    requires rows <= more && Prior(rows, event).Some?
    ensures Prior(more, event) == Prior(rows, event)
  {
    if rows[0].intervention.event != event { PriorKept(rows[1..], more[1..], event); }
  }

  // ---------------------------------------------------------------- the coordinator object

  class SessionMembershipCoordinator {
    const initial: seq<Definition>
    var rows: seq<Row>
    var round: nat
    var terminal: bool
    var registry: map<nat, Registered>
    var events: set<nat>
    var nextSeq: nat

    function View(): State
      reads this
    {
      State(initial, rows, round, terminal, registry, events, nextSeq)
    }

    constructor (start: State)
      requires Fresh(start)
      ensures View() == start && Inv(View())
    {
      initial, rows, round, terminal := start.initial, start.rows, start.round, start.terminal;
      registry, events, nextSeq := start.registry, start.events, start.nextSeq;
      new;
      FreshInv(start);
    }

    /** The membership query: the initial agents with the interventions effective by `at` applied in order. */
    method EffectiveMembers(at: nat) returns (members: Option<seq<Definition>>)
      ensures members == Snapshot(View(), at)
    {
      var ordered := initial;
      var chosen := Sort(ByRoundAndSeq(), Effective(rows, at));
      var n := 0;
      while n < |chosen|
        invariant 0 <= n <= |chosen| && Fold(initial, chosen[..n], registry) == Some(ordered)
      {
        assert chosen[..n + 1][..n] == chosen[..n];
        var q := chosen[n].intervention;
        var known := q.agent in registry;
        var index: Option<nat> := None;
        if q.kind.Replace? {
          index := IndexOf(ordered, q.kind.replaced);
          IndexOfMember(ordered, q.kind.replaced);
        }
        if !known || (q.kind.Replace? && index.None?) {
          FoldFails(initial, chosen, n + 1, registry);
          return None;
        }
        var d := registry[q.agent].definition;
        if q.kind.Replace? { ordered := ordered[index.value := d]; } else { ordered := ordered + [d]; }
        n := n + 1;
      }
      assert chosen[..n] == chosen;
      return if ValidMembers(ordered) then Some(ordered) else None;
    }

    /** An intervention is stored together with its ledger event, or refused for the first reason that applies. */
    method ApplyIntervention(q: Intervention) returns (r: Answer)
      requires Inv(View())
      modifies this
      ensures r == Apply(old(View()), q)
      ensures View() == Act(old(View()), Intervene(q)) && Inv(View())
    {
      hide Inv, Snapshot;
      ActKeepsInv(View(), Intervene(q));
      if !WellFormed(q) { return Rejected(MALFORMED); }
      var prior := Prior(rows, q.event);
      if prior.Some? {
        if prior.value != q { return Rejected(REUSED_EVENT); }
        var members := EffectiveMembers(q.effective);
        return Answered(View(), members);
      }
      if terminal { return Rejected(SESSION_ENDED); }
      if q.effective != round + 1 { return Rejected(WRONG_ROUND); }
      if q.kind.Replace? && round != 0 { return Rejected(REPLACE_TOO_LATE); }
      if q.kind.Inject? && round == 0 { return Rejected(INJECT_TOO_EARLY); }
      if q.agent !in registry || !registry[q.agent].active { return Rejected(AGENT_NOT_ACTIVE); }
      var current := EffectiveMembers(q.effective);
      if current.None? { return Rejected(MEMBERSHIP_INVALID); }
      if q.kind.Replace? && !IsMember(current.value, q.kind.replaced) { return Rejected(NOT_EFFECTIVE); }
      if !KeepsOneVersion(current.value, q, registry[q.agent].definition) { return Rejected(SECOND_VERSION); }
      if q.event in events { return Rejected(LEDGER_CONFLICT); }
      StoreKeepsInv(View(), q);
      SnapshotExists(Store(View(), q), q.effective);
      rows, events, nextSeq := rows + [Row(q, nextSeq)], events + {q.event}, nextSeq + 1;
      var members := EffectiveMembers(q.effective);
      return Answered(View(), members);
    }
  }

  lemma {:induction false} FoldFails(initial: seq<Definition>, rows: seq<Row>, n: nat, registry: map<nat, Registered>)
    requires n <= |rows| && Fold(initial, rows[..n], registry).None?
    ensures Fold(initial, rows, registry).None?
    decreases |rows|
  {
    if n < |rows| {
      assert rows[..|rows| - 1][..n] == rows[..n];
      FoldFails(initial, rows[..|rows| - 1], n, registry);
    } else {
      assert rows[..n] == rows;
    }
  }
}
