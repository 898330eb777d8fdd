/** The hash-chained ledger of a session, the daily anchors published over it, and their verification. */
module AuditAnchors {
  import opened Options
  import opened Sorting

  type Hash = nat
  const GENESIS: Hash := 0

  /** What is hashed: a payload, the facts of an event, or the facts of an anchor. */
  datatype Preimage =
    | PayloadPre(payload: nat)
    | EventPre(seqNo: nat, recordedAt: int, facts: nat, payloadHash: Hash, prevHash: Hash)
    | AnchorPre(day: int, headSeq: nat, headHash: Hash, prevHeadHash: Hash, anchoredAt: int)

  /** No two values share a digest, and none has the all-zero digest that starts a chain. */
  ghost predicate Collisionless(h: Preimage -> Hash) {
    && (forall x, y | h(x) == h(y) :: x == y)
    && (forall x :: h(x) != GENESIS)
  }

  // ---------------------------------------------------------------- the ledger

  /** `facts` stands for identity, actor, type, round and causation. */
  datatype Event = Event(
    seqNo: nat, recordedAt: int, facts: nat, payload: nat, payloadHash: Hash, prevHash: Hash, eventHash: Hash)

  const MICROSECONDS_PER_DAY := 86_400_000_000

  /** The UTC day of an event. */
  function Day(e: Event): int { e.recordedAt / MICROSECONDS_PER_DAY }

  function EventPreimage(e: Event): Preimage { EventPre(e.seqNo, e.recordedAt, e.facts, e.payloadHash, e.prevHash) }

  function HashBefore(events: seq<Event>, i: nat): Hash
    requires i <= |events|
  {
    if i == 0 then GENESIS else events[i - 1].eventHash
  }

  predicate EventOk(h: Preimage -> Hash, events: seq<Event>, i: nat)
    requires i < |events|
  {
    var e := events[i];
    && e.seqNo == i + 1 && e.payloadHash == h(PayloadPre(e.payload)) && e.prevHash == HashBefore(events, i)
    && e.eventHash == h(EventPreimage(e))
  }

  predicate ChainOk(h: Preimage -> Hash, events: seq<Event>) { forall i | 0 <= i < |events| :: EventOk(h, events, i) }

  function NextEvent(h: Preimage -> Hash, events: seq<Event>, recordedAt: int, facts: nat, payload: nat): Event {
    var e := Event(|events| + 1, recordedAt, facts, payload, h(PayloadPre(payload)), HashBefore(events, |events|), 0);
    e.(eventHash := h(EventPreimage(e)))
  }

  datatype LedgerFault = WRONG_SEQUENCE | PAYLOAD_HASH | PREVIOUS_HASH | EVENT_HASH | HEAD_SEQUENCE | HEAD_HASH
                       | HEAD_MISSING

  /** A failed ledger check; faults of an event name its sequence number. */
  datatype LedgerFailure = LedgerFailure(seqNo: Option<nat>, reason: LedgerFault)

  /** What is wrong with an event, looked at in this order. */
  function EventFault(h: Preimage -> Hash, events: seq<Event>, i: nat): (r: Option<LedgerFault>)
    requires i < |events|
    ensures r.None? <==> EventOk(h, events, i)
  {
    var e := events[i];
    if e.seqNo != i + 1 then Some(WRONG_SEQUENCE)
    else if e.payloadHash != h(PayloadPre(e.payload)) then Some(PAYLOAD_HASH)
    else if e.prevHash != HashBefore(events, i) then Some(PREVIOUS_HASH)
    else if e.eventHash != h(EventPreimage(e)) then Some(EVENT_HASH)
    else None
  }

  predicate HeadOk(events: seq<Event>, nextSeq: nat, headHash: Hash) {
    nextSeq == |events| + 1 && headHash == HashBefore(events, |events|)
  }

  /** The failure is that of the first event that is not in order, or of the head when all events are. */
  predicate Describes(
    h: Preimage -> Hash, events: seq<Event>, nextSeq: nat, headHash: Hash, failure: LedgerFailure)
  {
    if ChainOk(h, events) then
      && failure.seqNo.None?
      && if nextSeq != |events| + 1 then failure.reason.HEAD_SEQUENCE?
         else headHash != HashBefore(events, |events|) && failure.reason.HEAD_HASH?
    else
      exists i | 0 <= i < |events| ::
        && (forall k | 0 <= k < i :: EventOk(h, events, k)) && !EventOk(h, events, i)
        && failure.seqNo == Some(events[i].seqNo) && Some(failure.reason) == EventFault(h, events, i)
  }

  /** At most one failure describes a ledger. */
  lemma DescribesOnce(
    h: Preimage -> Hash, events: seq<Event>, nextSeq: nat, headHash: Hash, f: LedgerFailure, g: LedgerFailure)
    requires Describes(h, events, nextSeq, headHash, f) && Describes(h, events, nextSeq, headHash, g)
    ensures f == g
  {
    hide EventOk;
    if !ChainOk(h, events) {
      var i :| 0 <= i < |events| && (forall k | 0 <= k < i :: EventOk(h, events, k)) && !EventOk(h, events, i)
               && f.seqNo == Some(events[i].seqNo) && Some(f.reason) == EventFault(h, events, i);
      var j :| 0 <= j < |events| && (forall k | 0 <= k < j :: EventOk(h, events, k)) && !EventOk(h, events, j)
               && g.seqNo == Some(events[j].seqNo) && Some(g.reason) == EventFault(h, events, j);
      assert i == j;
    }
  }

  /** Replays the chain against the stored head, event by event, up to the first fault. */
  method VerifyEvents(h: Preimage -> Hash, events: seq<Event>, nextSeq: nat, headHash: Hash)
    returns (failure: Option<LedgerFailure>)
    ensures failure.None? <==> ChainOk(h, events) && HeadOk(events, nextSeq, headHash)
    ensures failure.Some? ==> Describes(h, events, nextSeq, headHash, failure.value)
  {
    var previous := GENESIS;
    var i := 0;
    while i < |events|
      invariant 0 <= i <= |events| && previous == HashBefore(events, i)
      invariant forall k | 0 <= k < i :: EventOk(h, events, k)
    {
      var e := events[i];
      assert EventFault(h, events, i).None? <==> EventOk(h, events, i);
      if e.seqNo != i + 1 { return Some(LedgerFailure(Some(e.seqNo), WRONG_SEQUENCE)); }
      if e.payloadHash != h(PayloadPre(e.payload)) { return Some(LedgerFailure(Some(e.seqNo), PAYLOAD_HASH)); }
      if e.prevHash != previous { return Some(LedgerFailure(Some(e.seqNo), PREVIOUS_HASH)); }
      if e.eventHash != h(EventPreimage(e)) { return Some(LedgerFailure(Some(e.seqNo), EVENT_HASH)); }
      previous := e.eventHash;
      i := i + 1;
    }
    if nextSeq != |events| + 1 { return Some(LedgerFailure(None, HEAD_SEQUENCE)); }
    if headHash != previous { return Some(LedgerFailure(None, HEAD_HASH)); }
    return None;
  }

  /** The stored head of a session's ledger: the next sequence number and the hash of the last event. */
  datatype LedgerHead = LedgerHead(nextSeq: nat, hash: Hash)

  datatype LedgerVerification = LedgerVerification(
    valid: bool, eventCount: nat, headHash: Hash, failure: Option<LedgerFailure>)

  /** The verification of a ledger; without a head nothing is read. */
  ghost predicate VerifiedLedger(
    h: Preimage -> Hash, events: seq<Event>, head: Option<LedgerHead>, v: LedgerVerification)
  {
    match head
    case None => v == LedgerVerification(false, 0, GENESIS, Some(LedgerFailure(None, HEAD_MISSING)))
    case Some(LedgerHead(nextSeq, hash)) =>
      && v.eventCount == |events| && v.headHash == hash && (v.valid <==> v.failure.None?)
      && (v.valid <==> ChainOk(h, events) && HeadOk(events, nextSeq, hash))
      && (v.failure.Some? ==> Describes(h, events, nextSeq, hash, v.failure.value))
  }

  method VerifyLedger(h: Preimage -> Hash, events: seq<Event>, head: Option<LedgerHead>)
    returns (v: LedgerVerification)
    ensures VerifiedLedger(h, events, head, v)
  {
    if head.None? { return LedgerVerification(false, 0, GENESIS, Some(LedgerFailure(None, HEAD_MISSING))); }
    var failure := VerifyEvents(h, events, head.value.nextSeq, head.value.hash);
    return LedgerVerification(failure.None?, |events|, head.value.hash, failure);
  }

  lemma EqualHashesEqualSeq(h: Preimage -> Hash, events: seq<Event>, i: nat, j: nat)
    requires Collisionless(h) && ChainOk(h, events) && i < |events| && j < |events|
    requires events[i].eventHash == events[j].eventHash
    ensures i == j
  {
    assert EventOk(h, events, i) && EventOk(h, events, j);
    assert EventPreimage(events[i]) == EventPreimage(events[j]);
  }

  /** Two valid ledgers that agree on the hash of one event agree on every event up to it. */
  lemma {:induction false} HashFixesHistory(h: Preimage -> Hash, a: seq<Event>, b: seq<Event>, i: nat)
    requires Collisionless(h) && ChainOk(h, a) && ChainOk(h, b) && i < |a| && i < |b|
    requires a[i].eventHash == b[i].eventHash
    ensures a[..i + 1] == b[..i + 1]
  {
    assert EventOk(h, a, i) && EventOk(h, b, i);
    assert EventPreimage(a[i]) == EventPreimage(b[i]);
    assert PayloadPre(a[i].payload) == PayloadPre(b[i].payload);
    assert a[i] == b[i];
    if i > 0 { HashFixesHistory(h, a, b, i - 1); }
    assert a[..i + 1] == a[..i] + [a[i]] && b[..i + 1] == b[..i] + [b[i]];
  }

  // ---------------------------------------------------------------- anchors

  datatype Anchor = Anchor(
    day: int, headSeq: nat, headHash: Hash, prevHeadHash: Hash, anchorHash: Hash, anchoredAt: int)

  function AnchorPreimage(a: Anchor): Preimage { AnchorPre(a.day, a.headSeq, a.headHash, a.prevHeadHash, a.anchoredAt) }

  const MAX_EVENT_SCAN: nat := 100_000

  /** What one read of the ledger returns. */
  function Visible(events: seq<Event>): seq<Event> {
    if |events| <= MAX_EVENT_SCAN then events else events[..MAX_EVENT_SCAN]
  }

  /** The last event, in ledger order, that is dated on or before `day`. */
  function DayHead(events: seq<Event>, day: int): Option<Event> {
    if events == [] then None
    else if Day(events[|events| - 1]) <= day then Some(events[|events| - 1])
    else DayHead(events[..|events| - 1], day)
  }

  predicate AnchorValid(
    h: Preimage -> Hash, a: Anchor, events: seq<Event>, expectedPrev: Hash, previousDay: Option<int>, previousSeq: nat)
  {
    && a.anchorHash == h(AnchorPreimage(a))
    && a.prevHeadHash == expectedPrev
    && (previousDay.Some? ==> a.day > previousDay.value)
    && (previousSeq != 0 ==> a.headSeq > previousSeq)
    && var head := DayHead(events, a.day);
       head.Some? && head.value.seqNo == a.headSeq && head.value.eventHash == a.headHash
  }

  datatype AnchorFault = ANCHOR_HASH | CHAIN_BROKEN | DAY_ORDER | HEAD_ORDER | NO_DAY_HEAD | OTHER_DAY_HEAD

  /** Why an anchor fails, looked at in this order. */
  function VerifyAnchor(
    h: Preimage -> Hash, a: Anchor, events: seq<Event>, expectedPrev: Hash, previousDay: Option<int>, previousSeq: nat)
    : (r: Option<AnchorFault>)
    ensures r.None? <==> AnchorValid(h, a, events, expectedPrev, previousDay, previousSeq)
  {
    var head := DayHead(events, a.day);
    if a.anchorHash != h(AnchorPreimage(a)) then Some(ANCHOR_HASH)
    else if a.prevHeadHash != expectedPrev then Some(CHAIN_BROKEN)
    else if previousDay.Some? && a.day <= previousDay.value then Some(DAY_ORDER)
    else if previousSeq != 0 && a.headSeq <= previousSeq then Some(HEAD_ORDER)
    else if head.None? then Some(NO_DAY_HEAD)
    else if head.value.seqNo != a.headSeq || head.value.eventHash != a.headHash then Some(OTHER_DAY_HEAD)
    else None
  }

  /** The fault of anchor `k`, given the anchors before it. */
  function FaultAt(h: Preimage -> Hash, anchors: seq<Anchor>, events: seq<Event>, k: nat): (r: Option<AnchorFault>)
    requires k < |anchors|
    ensures r.None? <==> ValidAt(h, anchors, events, k)
  {
    if k == 0 then VerifyAnchor(h, anchors[0], events, GENESIS, None, 0)
    else VerifyAnchor(h, anchors[k], events, anchors[k - 1].headHash, Some(anchors[k - 1].day), anchors[k - 1].headSeq)
  }

  /** The verdict on anchor `k`, given the anchors before it. */
  predicate ValidAt(h: Preimage -> Hash, anchors: seq<Anchor>, events: seq<Event>, k: nat)
    requires k < |anchors|
  {
    if k == 0 then AnchorValid(h, anchors[0], events, GENESIS, None, 0)
    else AnchorValid(h, anchors[k], events, anchors[k - 1].headHash, Some(anchors[k - 1].day), anchors[k - 1].headSeq)
  }

  predicate AllValid(h: Preimage -> Hash, anchors: seq<Anchor>, events: seq<Event>) {
    forall k | 0 <= k < |anchors| :: ValidAt(h, anchors, events, k)
  }

  /** An anchor and how many events the ledger had when it was published. */
  datatype Publication = Publication(anchor: Anchor, count: nat)

  /** The ledger and the anchors in the order of their publication. */
  datatype Session = Session(events: seq<Event>, log: seq<Publication>)

  function LoggedAnchors(log: seq<Publication>): (r: seq<Anchor>)
    ensures |r| == |log| && forall k | 0 <= k < |log| :: r[k] == log[k].anchor
  {
    seq(|log|, k requires 0 <= k < |log| => log[k].anchor)
  }

  function ByDay(): (Anchor, Anchor) -> bool { (a: Anchor, b: Anchor) => a.day <= b.day }

  /** The stored anchors as the repository returns them, by day. */
  function Anchors(log: seq<Publication>): seq<Anchor> { Sort(ByDay(), LoggedAnchors(log)) }

  function PreviousHead(log: seq<Publication>): Hash {
    var anchors := Anchors(log);
    if anchors == [] then GENESIS else anchors[|anchors| - 1].headHash
  }

  function NewAnchor(h: Preimage -> Hash, s: Session, head: Event, day: int, anchoredAt: int): Anchor {
    var a := Anchor(day, head.seqNo, head.eventHash, PreviousHead(s.log), 0, anchoredAt);
    a.(anchorHash := h(AnchorPreimage(a)))
  }

  datatype Published = Accepted(session: Session) | NoEvents | DayTaken

  function Publish(h: Preimage -> Hash, s: Session, day: int, anchoredAt: int): Published {
    var head := DayHead(Visible(s.events), day);
    if head.None? then NoEvents
    else if exists k | 0 <= k < |s.log| :: s.log[k].anchor.day == day then DayTaken
    else Accepted(s.(log := s.log + [Publication(NewAnchor(h, s, head.value, day, anchoredAt), |s.events|)]))
  }

  datatype Action = AppendEvent(recordedAt: int, facts: nat, payload: nat) | PublishAnchor(day: int, anchoredAt: int)

  function Act(h: Preimage -> Hash, s: Session, a: Action): Session {
    match a
    case AppendEvent(at, facts, payload) => s.(events := s.events + [NextEvent(h, s.events, at, facts, payload)])
    case PublishAnchor(day, at) => if Publish(h, s, day, at).Accepted? then Publish(h, s, day, at).session else s
  }

  function Run(h: Preimage -> Hash, actions: seq<Action>): Session {
    if actions == [] then Session([], [])
    else Act(h, Run(h, actions[..|actions| - 1]), actions[|actions| - 1])
  }

  // ---------------------------------------------------------------- what publication establishes

  ghost predicate PublicationOk(h: Preimage -> Hash, s: Session, k: nat)
    requires k < |s.log|
  {
    var a := s.log[k].anchor;
    && s.log[k].count <= |s.events|
    && a.anchorHash == h(AnchorPreimage(a))
    && a.prevHeadHash == PreviousHead(s.log[..k])
    && var head := DayHead(Visible(s.events[..s.log[k].count]), a.day);
       head.Some? && a.headSeq == head.value.seqNo && a.headHash == head.value.eventHash
  }

  ghost predicate Sound(h: Preimage -> Hash, s: Session) {
    && ChainOk(h, s.events)
    && (forall k | 0 <= k < |s.log| :: PublicationOk(h, s, k))
    && (forall k, m | 0 <= k < m < |s.log| :: s.log[k].anchor.day != s.log[m].anchor.day)
  }

  lemma AppendKeepsChain(h: Preimage -> Hash, events: seq<Event>, recordedAt: int, facts: nat, payload: nat)
    requires ChainOk(h, events)
    ensures ChainOk(h, events + [NextEvent(h, events, recordedAt, facts, payload)])
  {
    var events' := events + [NextEvent(h, events, recordedAt, facts, payload)];
    forall i | 0 <= i < |events'| ensures EventOk(h, events', i) {
      if i < |events| { assert EventOk(h, events, i); }
    }
  }

  lemma ActKeepsSound(h: Preimage -> Hash, s: Session, a: Action)
    requires Sound(h, s)
    ensures Sound(h, Act(h, s, a))
  {
    var s' := Act(h, s, a);
    if a.AppendEvent? {
      AppendKeepsChain(h, s.events, a.recordedAt, a.facts, a.payload);
      forall k | 0 <= k < |s'.log| ensures PublicationOk(h, s', k) {
        assert PublicationOk(h, s, k);
        assert s'.events[..s.log[k].count] == s.events[..s.log[k].count];
      }
    } else if s' != s {
      forall k | 0 <= k < |s'.log| ensures PublicationOk(h, s', k) {
        if k < |s.log| {
          assert PublicationOk(h, s, k);
          assert s'.log[..k] == s.log[..k];
        } else {
          assert s'.log[..k] == s.log && s.events[..|s.events|] == s.events;
        }
      }
    }
  }

  lemma {:induction false} RunIsSound(h: Preimage -> Hash, actions: seq<Action>)
    ensures Sound(h, Run(h, actions))
  {
    if actions != [] {
      RunIsSound(h, actions[..|actions| - 1]);
      ActKeepsSound(h, Run(h, actions[..|actions| - 1]), actions[|actions| - 1]);
    }
  }

  // ---------------------------------------------------------------- when all anchors verify

  /** Anchors were published in increasing day order, each with a newer head, and no event appended after an anchor is
      dated on or before its day, as far as a read can see. */
  ghost predicate Proper(s: Session) {
    && (forall k | 0 < k < |s.log| ::
          s.log[k - 1].anchor.day < s.log[k].anchor.day && s.log[k - 1].anchor.headSeq < s.log[k].anchor.headSeq)
    && (forall k, j | 0 <= k < |s.log| && s.log[k].count <= j < |Visible(s.events)| ::
          Day(Visible(s.events)[j]) > s.log[k].anchor.day)
  }

  ghost predicate Increasing(log: seq<Publication>) {
    forall i, j | 0 <= i < j < |log| :: log[i].anchor.day < log[j].anchor.day
  }

  lemma {:induction false} StepwiseIncreasing(log: seq<Publication>, i: nat, j: nat)
    requires forall k | 0 < k < |log| :: log[k - 1].anchor.day < log[k].anchor.day
    requires i < j < |log|
    ensures log[i].anchor.day < log[j].anchor.day
  {
    if i + 1 < j { StepwiseIncreasing(log, i, j - 1); }
    assert log[j - 1].anchor.day < log[j].anchor.day;
  }

  lemma ByDayIsPreorder()
    ensures TotalPreorder(ByDay())
  {
  }

  /** An increasing log is what the repository returns. */
  lemma IncreasingAnchors(log: seq<Publication>)
    requires Increasing(log)
    ensures Anchors(log) == LoggedAnchors(log)
    ensures PreviousHead(log) == if log == [] then GENESIS else log[|log| - 1].anchor.headHash
  {
    SortOfSorted(ByDay(), LoggedAnchors(log));
  }

  lemma {:induction false} DayHeadPrefix(events: seq<Event>, n: nat, day: int)
    requires n <= |events| && forall j | n <= j < |events| :: Day(events[j]) > day
    ensures DayHead(events, day) == DayHead(events[..n], day)
    decreases |events|
  {
    if n < |events| {
      assert events[..|events| - 1][..n] == events[..n];
      DayHeadPrefix(events[..|events| - 1], n, day);
    } else {
      assert events[..n] == events;
    }
  }

  lemma {:induction false} DayHeadIndex(events: seq<Event>, day: int) returns (i: nat)
    requires DayHead(events, day).Some?
    ensures i < |events| && events[i] == DayHead(events, day).value && Day(events[i]) <= day
    ensures forall j | i < j < |events| :: Day(events[j]) > day
  {
    var n := |events| - 1;
    if Day(events[n]) <= day { i := n; } else { i := DayHeadIndex(events[..n], day); }
  }

  lemma VisiblePrefix(events: seq<Event>, count: nat)
    requires count <= |events|
    ensures |Visible(events[..count])| <= |Visible(events)|
    ensures Visible(events[..count]) == Visible(events)[..|Visible(events[..count])|]
    ensures |Visible(events[..count])| == |Visible(events)| || |Visible(events[..count])| == count
  {
  }

  /** Increasing days, newer heads and no late events make every anchor verify. */
  lemma ProperAnchorsVerify(h: Preimage -> Hash, s: Session)
    requires Sound(h, s) && Proper(s)
    ensures AllValid(h, Anchors(s.log), Visible(s.events))
  {
    hide Sort, ChainOk, DayHead, PreviousHead;
    forall i, j | 0 <= i < j < |s.log| ensures s.log[i].anchor.day < s.log[j].anchor.day {
      StepwiseIncreasing(s.log, i, j);
    }
    IncreasingAnchors(s.log);
    forall k | 0 <= k < |s.log| ensures ValidAt(h, Anchors(s.log), Visible(s.events), k) {
      assert PublicationOk(h, s, k);
      IncreasingAnchors(s.log[..k]);
      VisiblePrefix(s.events, s.log[k].count);
      DayHeadPrefix(Visible(s.events), |Visible(s.events[..s.log[k].count])|, s.log[k].anchor.day);
    }
  }

  /** A verified anchor names an event of the ledger. */
  lemma HeadOfValid(h: Preimage -> Hash, events: seq<Event>, anchors: seq<Anchor>, k: nat)
    requires ChainOk(h, events) && k < |anchors| && ValidAt(h, anchors, Visible(events), k)
    ensures 1 <= anchors[k].headSeq <= |Visible(events)| <= |events|
    ensures events[anchors[k].headSeq - 1].eventHash == anchors[k].headHash
    ensures Day(events[anchors[k].headSeq - 1]) <= anchors[k].day
    ensures forall j | anchors[k].headSeq <= j < |Visible(events)| :: Day(Visible(events)[j]) > anchors[k].day
  {
    var i := DayHeadIndex(Visible(events), anchors[k].day);
    assert Visible(events)[i] == events[i];
    assert EventOk(h, events, i);
  }

  lemma {:induction false} HeadsRise(h: Preimage -> Hash, events: seq<Event>, anchors: seq<Anchor>, k: nat, m: nat)
    requires ChainOk(h, events) && AllValid(h, anchors, Visible(events)) && k < m < |anchors|
    ensures anchors[k].headSeq < anchors[m].headSeq
  {
    assert ValidAt(h, anchors, Visible(events), m - 1) && ValidAt(h, anchors, Visible(events), m);
    HeadOfValid(h, events, anchors, m - 1);
    if k < m - 1 { HeadsRise(h, events, anchors, k, m - 1); }
  }

  /** In a verified chain, the previous head of an anchor is the head of no later anchor. */
  lemma PreviousIsEarlier(h: Preimage -> Hash, events: seq<Event>, anchors: seq<Anchor>, p: nat, q: nat)
    requires Collisionless(h) && ChainOk(h, events) && AllValid(h, anchors, Visible(events)) && p < q < |anchors|
    ensures anchors[p].prevHeadHash != anchors[q].headHash
  {
    assert ValidAt(h, anchors, Visible(events), p) && ValidAt(h, anchors, Visible(events), q);
    HeadOfValid(h, events, anchors, q);
    if p == 0 {
      assert EventOk(h, events, anchors[q].headSeq - 1);
    } else {
      assert ValidAt(h, anchors, Visible(events), p - 1);
      HeadOfValid(h, events, anchors, p - 1);
      HeadsRise(h, events, anchors, p - 1, q);
      if anchors[p - 1].headHash == anchors[q].headHash {
        EqualHashesEqualSeq(h, events, anchors[p - 1].headSeq - 1, anchors[q].headSeq - 1);
      }
    }
  }

  lemma Position(s: seq<Anchor>, a: Anchor) returns (p: nat)
    requires a in s
    ensures p < |s| && s[p] == a
  {
    p :| p < |s| && s[p] == a;
  }

  /** The repository lists the anchor of an earlier day first. */
  lemma EarlierDayFirst(log: seq<Publication>, k: nat, m: nat) returns (p: nat, q: nat)
    requires k < |log| && m < |log| && log[k].anchor.day < log[m].anchor.day
    ensures p < q < |Anchors(log)| && Anchors(log)[p] == log[k].anchor && Anchors(log)[q] == log[m].anchor
  {
    hide Sort;
    var listed := LoggedAnchors(log);
    MembersOfSort(ByDay(), listed);
    assert listed[k] in listed && listed[m] in listed;
    p := Position(Anchors(log), listed[k]);
    q := Position(Anchors(log), listed[m]);
    ByDayIsPreorder();
    SortSorted(ByDay(), listed);
  }

  /** An anchor published for an earlier day than the one before it does not verify. */
  lemma OutOfOrderFails(h: Preimage -> Hash, s: Session, k: nat)
    requires Collisionless(h) && Sound(h, s) && 0 < k < |s.log| && Increasing(s.log[..k])
    requires s.log[k].anchor.day < s.log[k - 1].anchor.day
    ensures !AllValid(h, Anchors(s.log), Visible(s.events))
  {
    hide Sort, AllValid, ChainOk, Visible, DayHead, Collisionless, PreviousHead, Anchors;
    assert PublicationOk(h, s, k);
    IncreasingAnchors(s.log[..k]);
    var p, q := EarlierDayFirst(s.log, k, k - 1);
    if AllValid(h, Anchors(s.log), Visible(s.events)) {
      PreviousIsEarlier(h, s.events, Anchors(s.log), p, q);
    }
  }

  /** If all anchors verify, they were published in increasing day order. */
  lemma {:induction false} VerifiedIsIncreasing(h: Preimage -> Hash, s: Session, n: nat)
    requires Collisionless(h) && Sound(h, s) && AllValid(h, Anchors(s.log), Visible(s.events)) && n <= |s.log|
    ensures Increasing(s.log[..n])
  {
    hide Sort, AllValid, ChainOk, Visible, Collisionless, PublicationOk, Anchors;
    if n > 1 {
      VerifiedIsIncreasing(h, s, n - 1);
      var k := n - 1;
      if s.log[k].anchor.day < s.log[k - 1].anchor.day { OutOfOrderFails(h, s, k); }
      assert s.log[..n] == s.log[..k] + [s.log[k]] && s.log[..k][k - 1] == s.log[k - 1];
    }
  }

  /** No event that a read can see and that is dated on or before the day of a verified anchor came after it. */
  lemma NoLateEvent(h: Preimage -> Hash, s: Session, k: nat, j: nat)
    requires Sound(h, s) && k < |s.log| && s.log[k].count <= j < |Visible(s.events)|
    requires ValidAt(h, LoggedAnchors(s.log), Visible(s.events), k)
    ensures Day(Visible(s.events)[j]) > s.log[k].anchor.day
  {
    hide ValidAt, Sort, PreviousHead;
    HeadOfValid(h, s.events, LoggedAnchors(s.log), k);
    assert PublicationOk(h, s, k);
    hide ChainOk, Visible, DayHead;
    HeadBeforePublication(h, s, k);
  }

  lemma HeadBeforePublication(h: Preimage -> Hash, s: Session, k: nat)
    requires ChainOk(h, s.events) && k < |s.log| && PublicationOk(h, s, k)
    ensures s.log[k].anchor.headSeq <= s.log[k].count
  {
    hide PreviousHead;
    var visible := Visible(s.events[..s.log[k].count]);
    var i := DayHeadIndex(visible, s.log[k].anchor.day);
    assert visible[i] == s.events[i] && EventOk(h, s.events, i);
  }

  /** If all anchors verify, they were published properly. */
  lemma VerifiedIsProper(h: Preimage -> Hash, s: Session)
    requires Collisionless(h) && Sound(h, s) && AllValid(h, Anchors(s.log), Visible(s.events))
    ensures Proper(s)
  {
    hide ValidAt, Visible, PublicationOk, ChainOk, Sort, EventOk;
    VerifiedIsIncreasing(h, s, |s.log|);
    assert s.log[..|s.log|] == s.log;
    IncreasingAnchors(s.log);
    forall k | 0 < k < |s.log| ensures s.log[k - 1].anchor.headSeq < s.log[k].anchor.headSeq {
      HeadsRise(h, s.events, LoggedAnchors(s.log), k - 1, k);
    }
    forall k, j | 0 <= k < |s.log| && s.log[k].count <= j < |Visible(s.events)|
      ensures Day(Visible(s.events)[j]) > s.log[k].anchor.day
    {
      NoLateEvent(h, s, k, j);
    }
  }

  /** In every session, all anchors verify exactly when they were published in increasing day order, each with a newer
      head, and no event that a read can see was appended later with a date on or before an anchored day. */
  lemma AnchorsVerifyIffProper(h: Preimage -> Hash, actions: seq<Action>)
    requires Collisionless(h)
    ensures var s := Run(h, actions); AllValid(h, Anchors(s.log), Visible(s.events)) <==> Proper(s)
  {
    RunIsSound(h, actions);
    var s := Run(h, actions);
    if Proper(s) { ProperAnchorsVerify(h, s); }
    if AllValid(h, Anchors(s.log), Visible(s.events)) { VerifiedIsProper(h, s); }
  }

  /** Two valid ledgers for which the same anchors verify agree on every event up to the last anchored head. */
  lemma AnchorsFixHistory(h: Preimage -> Hash, a: seq<Event>, b: seq<Event>, anchors: seq<Anchor>)
    requires Collisionless(h) && ChainOk(h, a) && ChainOk(h, b) && anchors != []
    requires AllValid(h, anchors, Visible(a)) && AllValid(h, anchors, Visible(b))
    ensures var head := anchors[|anchors| - 1].headSeq;
            head <= |a| && head <= |b| && a[..head] == b[..head]
  {
    var k := |anchors| - 1;
    assert ValidAt(h, anchors, Visible(a), k) && ValidAt(h, anchors, Visible(b), k);
    HeadOfValid(h, a, anchors, k);
    HeadOfValid(h, b, anchors, k);
    HashFixesHistory(h, a, b, anchors[k].headSeq - 1);
  }

  // ---------------------------------------------------------------- the service

  /** `faults` tells of each anchor, by day, why it fails; nothing for a valid one. */
  datatype Report = Report(
    eventCount: nat, ledger: LedgerVerification, faults: seq<Option<AnchorFault>>, firstInvalidDay: Option<int>,
    chainValid: bool)

  function Faults(h: Preimage -> Hash, anchors: seq<Anchor>, events: seq<Event>): seq<Option<AnchorFault>> {
    seq(|anchors|, k requires 0 <= k < |anchors| => FaultAt(h, anchors, events, k))
  }

  /** What the report calls the first invalid day: the day of the last of the first `n` anchors that fails. */
  function ReportedDay(h: Preimage -> Hash, anchors: seq<Anchor>, events: seq<Event>, n: nat): Option<int>
    requires n <= |anchors|
  {
    if n == 0 then None
    else if !ValidAt(h, anchors, events, n - 1) then Some(anchors[n - 1].day)
    else ReportedDay(h, anchors, events, n - 1)
  }

  function FirstFailure(h: Preimage -> Hash, anchors: seq<Anchor>, events: seq<Event>, n: nat): Option<int>
    requires n <= |anchors|
  {
    if n == 0 then None
    else
      var earlier := FirstFailure(h, anchors, events, n - 1);
      if earlier.Some? then earlier
      else if !ValidAt(h, anchors, events, n - 1) then Some(anchors[n - 1].day) else None
  }

  /** The report holds the verification of the ledger and the fault of each anchor; it is valid when nothing fails. */
  ghost predicate Integrity(h: Preimage -> Hash, s: Session, head: Option<LedgerHead>, r: Report) {
    var events, anchors := Visible(s.events), Anchors(s.log);
    && VerifiedLedger(h, s.events, head, r.ledger)
    && r.eventCount == |events| && r.faults == Faults(h, anchors, events)
    && r.firstInvalidDay == ReportedDay(h, anchors, events, |anchors|)
    && (r.chainValid <==> r.ledger.valid && AllValid(h, anchors, events))
  }

  class ChainVerificationService {
    var events: seq<Event>
    var log: seq<Publication>

    function View(): Session
      reads this
    {
      Session(events, log)
    }

    constructor ()
      ensures View() == Session([], [])
    {
      events, log := [], [];
    }

    method PublishDailyAnchor(h: Preimage -> Hash, day: int, anchoredAt: int) returns (r: Published)
      modifies this`log
      ensures r == Publish(h, old(View()), day, anchoredAt)
      ensures View() == Act(h, old(View()), PublishAnchor(day, anchoredAt))
    {
      var head := DayHead(Visible(events), day);
      if head.None? { return NoEvents; }
      var prev := PreviousHead(log);
      if exists k | 0 <= k < |log| :: log[k].anchor.day == day { return DayTaken; }
      var anchor := Anchor(day, head.value.seqNo, head.value.eventHash, prev, 0, anchoredAt);
      log := log + [Publication(anchor.(anchorHash := h(AnchorPreimage(anchor))), |events|)];
      return Accepted(View());
    }

    /** Verifies the ledger and every anchor, in day order. */
    method ChainIntegrity(h: Preimage -> Hash, head: Option<LedgerHead>) returns (r: Report)
      ensures Integrity(h, View(), head, r)
    {
      hide AnchorValid, ChainOk, Sort, ValidAt, VerifyAnchor, VerifiedLedger;
      var visible := Visible(events);
      var ledger := VerifyLedger(h, events, head);
      var anchors := Anchors(log);
      var expectedPrev, previousDay, previousSeq := GENESIS, None, 0;
      var firstInvalid: Option<int>, valid, faults := None, ledger.valid, [];
      var k := 0;
      while k < |anchors|
        invariant 0 <= k <= |anchors|
        invariant if k == 0 then expectedPrev == GENESIS && previousDay == None && previousSeq == 0
                  else expectedPrev == anchors[k - 1].headHash && previousDay == Some(anchors[k - 1].day)
                       && previousSeq == anchors[k - 1].headSeq
        invariant |faults| == k && forall i | 0 <= i < k :: faults[i] == FaultAt(h, anchors, visible, i)
        invariant valid <==> ledger.valid && forall i | 0 <= i < k :: ValidAt(h, anchors, visible, i)
        invariant firstInvalid == ReportedDay(h, anchors, visible, k)
      {
        var a := anchors[k];
        var fault := VerifyAnchor(h, a, visible, expectedPrev, previousDay, previousSeq);
        assert fault == FaultAt(h, anchors, visible, k);
        if fault.Some? {
          firstInvalid := Some(a.day);
          valid := false;
        }
        faults := faults + [fault];
        expectedPrev, previousDay, previousSeq := a.headHash, Some(a.day), a.headSeq;
        k := k + 1;
      }
      return Report(|visible|, ledger, faults, firstInvalid, valid);
    }
  }

  ghost function Failures(h: Preimage -> Hash, anchors: seq<Anchor>, events: seq<Event>, n: nat): nat
    requires n <= |anchors|
  {
    if n == 0 then 0 else Failures(h, anchors, events, n - 1) + if ValidAt(h, anchors, events, n - 1) then 0 else 1
  }

  lemma {:induction false} FailureDays(h: Preimage -> Hash, anchors: seq<Anchor>, events: seq<Event>, n: nat)
    requires n <= |anchors| && forall i, j | 0 <= i < j < |anchors| :: anchors[i].day < anchors[j].day
    ensures var first, reported := FirstFailure(h, anchors, events, n), ReportedDay(h, anchors, events, n);
            && (Failures(h, anchors, events, n) == 0 <==> first.None?) && (first.None? <==> reported.None?)
            && (first.Some? ==> exists i | 0 <= i < n :: anchors[i].day == first.value)
            && (first == reported <==> Failures(h, anchors, events, n) <= 1)
  {
    if n > 0 { FailureDays(h, anchors, events, n - 1); }
  }

  /** The day that a report names as the first invalid one is that day exactly when at most one anchor fails; with more
      failures it is the last of their days. */
  lemma ReportedDayIsFirstIff(h: Preimage -> Hash, actions: seq<Action>)
    ensures var s := Run(h, actions);
            var events, anchors := Visible(s.events), Anchors(s.log);
            ReportedDay(h, anchors, events, |anchors|) == FirstFailure(h, anchors, events, |anchors|)
            <==> Failures(h, anchors, events, |anchors|) <= 1
  {
    RunIsSound(h, actions);
    var s := Run(h, actions);
    DaysAreSorted(h, s);
    FailureDays(h, Anchors(s.log), Visible(s.events), |Anchors(s.log)|);
  }

  /** Publishing for a later day when the ledger holds one event. */
  lemma PublishAgain(h: Preimage -> Hash, s: Session, e: Event, day: int) returns (p: Publication)
    requires s.events == [e] && Day(e) <= day && forall k | 0 <= k < |s.log| :: s.log[k].anchor.day < day
    ensures Act(h, s, PublishAnchor(day, 0)) == s.(log := s.log + [p])
    ensures p.anchor.day == day && p.anchor.headSeq == e.seqNo && p.anchor.headHash == e.eventHash
    ensures p.anchor.anchorHash == h(AnchorPreimage(p.anchor)) && p.anchor.prevHeadHash == PreviousHead(s.log)
  {
    p := Publication(NewAnchor(h, s, e, day, 0), 1);
  }

  lemma RunNext(h: Preimage -> Hash, actions: seq<Action>, a: Action)
    ensures Run(h, actions + [a]) == Act(h, Run(h, actions), a)
  {
    assert (actions + [a])[..|actions|] == actions;
  }

  /** An event, an anchor, and two anchors without any newer event: the anchor of day 2 is the first to fail, but the
      report names day 3. */
  lemma ReportedDayCanBeLater(h: Preimage -> Hash) returns (actions: seq<Action>)
    ensures var s := Run(h, actions);
            var events, anchors := Visible(s.events), Anchors(s.log);
            && FirstFailure(h, anchors, events, |anchors|) == Some(2)
            && ReportedDay(h, anchors, events, |anchors|) == Some(3)
  {
    var start := AppendEvent(MICROSECONDS_PER_DAY, 0, 0);
    var e := NextEvent(h, [], MICROSECONDS_PER_DAY, 0, 0);
    RunNext(h, [], start);
    assert [] + [start] == [start];
    var s0 := Session([e], []);
    assert Run(h, [start]) == s0 && Day(e) == 1;
    hide Run, Act, Anchors, NextEvent, PreviousHead, NewAnchor, Publish;
    var p1 := PublishAgain(h, s0, e, 1);
    RunNext(h, [start], PublishAnchor(1, 0));
    var s1 := s0.(log := [] + [p1]);
    var p2 := PublishAgain(h, s1, e, 2);
    RunNext(h, [start] + [PublishAnchor(1, 0)], PublishAnchor(2, 0));
    var s2 := s1.(log := s1.log + [p2]);
    var p3 := PublishAgain(h, s2, e, 3);
    actions := [start] + [PublishAnchor(1, 0)] + [PublishAnchor(2, 0)] + [PublishAnchor(3, 0)];
    RunNext(h, [start] + [PublishAnchor(1, 0)] + [PublishAnchor(2, 0)], PublishAnchor(3, 0));
    var s := s2.(log := s2.log + [p3]);
    assert s.log == [p1, p2, p3];
    IncreasingAnchors(s.log);
    IncreasingAnchors([]);
    TwoStaleAnchors(h, e, LoggedAnchors(s.log));
  }

  lemma TwoStaleAnchors(h: Preimage -> Hash, e: Event, anchors: seq<Anchor>)
    requires Day(e) == 1 && e.seqNo == 1 && |anchors| == 3
    requires forall k | 0 <= k < 3 :: anchors[k].day == k + 1 && anchors[k].headSeq == 1
    requires anchors[0].headHash == e.eventHash && anchors[0].prevHeadHash == GENESIS
    requires anchors[0].anchorHash == h(AnchorPreimage(anchors[0]))
    ensures FirstFailure(h, anchors, [e], 3) == Some(2) && ReportedDay(h, anchors, [e], 3) == Some(3)
  {
    assert ValidAt(h, anchors, [e], 0);
    assert !ValidAt(h, anchors, [e], 1) && !ValidAt(h, anchors, [e], 2);
    assert FirstFailure(h, anchors, [e], 1) == None;
    assert FirstFailure(h, anchors, [e], 2) == Some(2);
  }

  lemma DaysAreSorted(h: Preimage -> Hash, s: Session)
    requires Sound(h, s)
    ensures forall i, j | 0 <= i < j < |Anchors(s.log)| :: Anchors(s.log)[i].day < Anchors(s.log)[j].day
  {
    ByDayIsPreorder();
    SortSorted(ByDay(), LoggedAnchors(s.log));
    SortPermutes(ByDay(), LoggedAnchors(s.log));
    RearrangedKeys((a: Anchor) => a.day, LoggedAnchors(s.log), Anchors(s.log));
  }

  // ---------------------------------------------------------------- the originating turn

  /** What the causation walk looks at. */
  datatype Cause = Cause(id: nat, causation: Option<nat>, completesTurn: bool)

  const MAX_CAUSATION_HOPS: nat := 32

  function Parent(byId: map<nat, Cause>, c: Cause): Option<Cause> {
    if c.causation.Some? && c.causation.value in byId then Some(byId[c.causation.value]) else None
  }

  /** The event `n` causation links up from `c`. */
  function Ancestor(byId: map<nat, Cause>, c: Cause, n: nat): Option<Cause> {
    if n == 0 then Some(c)
    else
      var below := Ancestor(byId, c, n - 1);
      if below.None? then None else Parent(byId, below.value)
  }

  /** The nearest proper ancestor that completes a turn is `n` links up. */
  predicate NearestTurn(byId: map<nat, Cause>, c: Cause, n: nat) {
    && n >= 1 && Ancestor(byId, c, n).Some? && Ancestor(byId, c, n).value.completesTurn
    && forall m | 1 <= m < n :: Ancestor(byId, c, m).Some? && !Ancestor(byId, c, m).value.completesTurn
  }

  lemma {:induction false} AncestorsStop(byId: map<nat, Cause>, c: Cause, k: nat, n: nat)
    requires k <= n && Ancestor(byId, c, k).None?
    ensures Ancestor(byId, c, n).None?
  {
    if k < n { AncestorsStop(byId, c, k, n - 1); }
  }

  /** From a repeated ancestor on, the walk repeats too. */
  lemma {:induction false} AncestorsRepeat(byId: map<nat, Cause>, c: Cause, i: nat, j: nat, n: nat)
    requires i < j && Ancestor(byId, c, i) == Ancestor(byId, c, j)
    ensures Ancestor(byId, c, i + n) == Ancestor(byId, c, j + n)
  {
    if n > 0 { AncestorsRepeat(byId, c, i, j, n - 1); }
  }

  /** Around a loop without a turn there is no turn at all. */
  lemma {:induction false} NoTurnAroundLoop(byId: map<nat, Cause>, c: Cause, i: nat, j: nat, n: nat)
    requires i < j && Ancestor(byId, c, i) == Ancestor(byId, c, j)
    requires forall m | 1 <= m <= j :: Ancestor(byId, c, m).Some? && !Ancestor(byId, c, m).value.completesTurn
    requires n >= 1
    ensures Ancestor(byId, c, n).Some? && !Ancestor(byId, c, n).value.completesTurn
  {
    if n > j {
      AncestorsRepeat(byId, c, i, j, n - j);
      NoTurnAroundLoop(byId, c, i, j, i + (n - j));
    }
  }

  /** Walks the causation links; within the hop limit it finds the nearest turn exactly when there is one. */
  method OriginatingTurn(byId: map<nat, Cause>, start: Cause) returns (r: Option<Cause>)
    requires forall id | id in byId :: byId[id].id == id
    requires start.id in byId && byId[start.id] == start
    ensures r.Some? ==> exists n | 1 <= n <= MAX_CAUSATION_HOPS :: NearestTurn(byId, start, n)
                                                                 && Ancestor(byId, start, n) == r
    ensures r.None? ==> forall n | 1 <= n <= MAX_CAUSATION_HOPS :: !NearestTurn(byId, start, n)
  {
    var current := start;
    var seen: set<nat> := {};
    var hops := 0;
    while current.causation.Some?
      invariant 0 <= hops <= MAX_CAUSATION_HOPS && Ancestor(byId, start, hops) == Some(current)
      invariant current.id in byId && byId[current.id] == current
      invariant forall m | 1 <= m <= hops ::
                  Ancestor(byId, start, m).Some? && !Ancestor(byId, start, m).value.completesTurn
      invariant forall id | id in seen :: exists m | 0 <= m < hops ::
                  Ancestor(byId, start, m).Some? && Ancestor(byId, start, m).value.id == id
                  && id in byId && Ancestor(byId, start, m).value == byId[id]
      decreases MAX_CAUSATION_HOPS - hops
    {
      if current.id in seen {
        var m :| 0 <= m < hops && Ancestor(byId, start, m).Some? && Ancestor(byId, start, m).value == byId[current.id];
        forall n | 1 <= n <= MAX_CAUSATION_HOPS ensures !NearestTurn(byId, start, n) {
          NoTurnAroundLoop(byId, start, m, hops, n);
        }
        return None;
      }
      if hops >= MAX_CAUSATION_HOPS { return None; }
      seen := seen + {current.id};
      hops := hops + 1;
      var next := Parent(byId, current);
      if next.None? {
        forall n | 1 <= n <= MAX_CAUSATION_HOPS ensures !NearestTurn(byId, start, n) {
          if n >= hops { AncestorsStop(byId, start, hops, n); }
        }
        return None;
      }
      if next.value.completesTurn {
        assert NearestTurn(byId, start, hops);
        return next;
      }
      current := next.value;
    }
    forall n | 1 <= n <= MAX_CAUSATION_HOPS ensures !NearestTurn(byId, start, n) {
      if n > hops { AncestorsStop(byId, start, hops + 1, n); }
    }
    return None;
  }
}
