/** Replaying a finished session: the paged ledger read, the comparison with the recorded ledger, and the strict and
    tolerant re-execution of its steps. */
module Replay {
  import opened Options
  import Records = MarlRecords
  import Bundles = MarlBundle

  // ---------------------------------------------------------------- the paged read

  /** An event as far as replay looks at it. */
  datatype LedgerEvent = LedgerEvent(id: nat, seqNo: nat, hash: nat)

  const PAGE_LIMIT: nat := 1000

  /** Sequence numbers are positive and strictly increasing. */
  ghost predicate Increasing(events: seq<LedgerEvent>) {
    && (forall i | 0 <= i < |events| :: events[i].seqNo >= 1)
    && (forall i, j | 0 <= i < j < |events| :: events[i].seqNo < events[j].seqNo)
  }

  function From(events: seq<LedgerEvent>, fromSeq: nat): seq<LedgerEvent> {
    if events == [] || events[0].seqNo >= fromSeq then events else From(events[1..], fromSeq)
  }

  function Take(events: seq<LedgerEvent>, limit: nat): seq<LedgerEvent> {
    if |events| <= limit then events else events[..limit]
  }

  /** One read of the port: the first `limit` events from a sequence number on. */
  function ReadPage(events: seq<LedgerEvent>, fromSeq: nat, limit: nat): seq<LedgerEvent> {
    Take(From(events, fromSeq), limit)
  }

  lemma {:induction false} FromIsSuffix(events: seq<LedgerEvent>, n: nat, fromSeq: nat)
    requires Increasing(events) && n <= |events|
    requires n > 0 ==> events[n - 1].seqNo < fromSeq
    requires n < |events| ==> events[n].seqNo >= fromSeq
    ensures From(events, fromSeq) == events[n..]
    decreases |events|
  {
    if n > 0 {
      assert events[0].seqNo < fromSeq by { if n > 1 { assert events[0].seqNo < events[n - 1].seqNo; } }
      assert events[1..][n - 1..] == events[n..];
      if n > 1 { assert events[1..][n - 2] == events[n - 1]; }
      if n < |events| { assert events[1..][n - 1] == events[n]; }
      FromIsSuffix(events[1..], n - 1, fromSeq);
    }
  }

  /** Reading page by page until a page is short returns the whole ledger, and stops. */
  method ReadAll(ledger: seq<LedgerEvent>) returns (actual: seq<LedgerEvent>)
    requires Increasing(ledger)
    ensures actual == ledger
  {
    actual := [];
    var nextSeq: nat := 1;
    ghost var n := 0;
    FromIsSuffix(ledger, 0, 1);
    while true
      invariant n <= |ledger| && actual == ledger[..n] && From(ledger, nextSeq) == ledger[n..]
      decreases |ledger| - n
    {
      var batch := ReadPage(ledger, nextSeq, PAGE_LIMIT);
      assert ledger[..n] + batch == ledger[..n + |batch|];
      actual := actual + batch;
      n := n + |batch|;
      if |batch| < PAGE_LIMIT {
        assert n == |ledger|;
        return;
      }
      assert batch[|batch| - 1] == ledger[n - 1];
      nextSeq := batch[|batch| - 1].seqNo + 1;
      FromIsSuffix(ledger, n, nextSeq);
    }
  }

  // ---------------------------------------------------------------- the recorded ledger

  datatype Reason = MANIFEST_MISMATCH | LEDGER_INTEGRITY | LEDGER_MISMATCH | UNKNOWN_IMPLEMENTATION
                  | NONDETERMINISTIC_IMPLEMENTATION | OUTPUT_MISMATCH | MARL_REPLAY_FAILED
                  | HISTORICAL_REPLAY_UNAVAILABLE | LIVE_LAUNCH_UNAVAILABLE | INVALID_LIVE_IDENTITY

  /** `order` is the event or step concerned, where one is named. */
  datatype Mismatch = Mismatch(reason: Reason, order: Option<nat>)

  /** What the ledger's own verification reports. */
  datatype Verification = Verification(valid: bool, firstInvalid: Option<nat>)

  predicate SameHashes(a: seq<LedgerEvent>, b: seq<LedgerEvent>) {
    |a| == |b| && forall i | 0 <= i < |a| :: a[i].hash == b[i].hash
  }

  function Shorter(a: seq<LedgerEvent>, b: seq<LedgerEvent>): nat { if |a| <= |b| then |a| else |b| }

  /** `m` names position `i`, the first at which the two sides differ or one of them has ended. */
  predicate FirstDifference(recorded: seq<LedgerEvent>, ledger: seq<LedgerEvent>, i: nat, m: Mismatch)
    requires i <= Shorter(recorded, ledger)
  {
    && (forall j | 0 <= j < i :: recorded[j].hash == ledger[j].hash)
    && if i < Shorter(recorded, ledger)
       then recorded[i].hash != ledger[i].hash && m == Mismatch(LEDGER_MISMATCH, Some(recorded[i].seqNo))
       else |recorded| != |ledger| && m == Mismatch(LEDGER_MISMATCH, Some(i + 1))
  }

  /** What is wrong with the ledger: its own verification, or else the first difference from the recorded one. */
  ghost predicate LedgerFault(recorded: seq<LedgerEvent>, ledger: seq<LedgerEvent>, v: Verification, m: Mismatch) {
    if !v.valid then m == Mismatch(LEDGER_INTEGRITY, v.firstInvalid)
    else exists i | 0 <= i <= Shorter(recorded, ledger) :: FirstDifference(recorded, ledger, i, m)
  }

  /** Passes exactly when the ledger verifies and the recorded hashes are the stored ones; otherwise it names the first
      event that differs, or the first that only one side has. */
  method VerifyLedger(recorded: seq<LedgerEvent>, ledger: seq<LedgerEvent>, v: Verification)
    returns (r: Option<Mismatch>)
    requires Increasing(ledger)
    ensures r.None? <==> v.valid && SameHashes(recorded, ledger)
    ensures r.Some? ==> LedgerFault(recorded, ledger, v, r.value)
  {
    if !v.valid { return Some(Mismatch(LEDGER_INTEGRITY, v.firstInvalid)); }
    var actual := ReadAll(ledger);
    var i := 0;
    while i < |recorded| && i < |actual|
      invariant 0 <= i <= Shorter(recorded, actual)
      invariant forall j | 0 <= j < i :: recorded[j].hash == actual[j].hash
    {
      if recorded[i].hash != actual[i].hash {
        r := Some(Mismatch(LEDGER_MISMATCH, Some(recorded[i].seqNo)));
        assert FirstDifference(recorded, ledger, i, r.value);
        return;
      }
      i := i + 1;
    }
    if |recorded| != |actual| {
      r := Some(Mismatch(LEDGER_MISMATCH, Some(Shorter(recorded, actual) + 1)));
      assert FirstDifference(recorded, ledger, i, r.value);
      return;
    }
    return None;
  }

  // ---------------------------------------------------------------- steps

  datatype Identity = Identity(
    id: nat, version: nat, provider: Option<nat>, model: Option<nat>, configuration: Option<nat>)

  datatype Policy = RECORDED | DETERMINISTIC | EXTERNAL

  datatype Step = Step(
    id: nat, order: nat, policy: Policy, implementation: Option<Identity>, input: nat, expectedOutput: nat,
    expectedStatus: Option<nat>, tolerantAllowed: bool, timingSensitive: bool)

  /** The validator of a step. */
  predicate Coherent(s: Step) {
    && (s.policy.RECORDED? || s.implementation.Some?)
    && (s.policy.RECORDED? ==> !s.tolerantAllowed)
    && (s.policy.EXTERNAL? ==> s.tolerantAllowed)
  }

  predicate AllCoherent(steps: seq<Step>) { forall i | 0 <= i < |steps| :: Coherent(steps[i]) }

  /** Output stands for the output hash. */
  datatype Execution = Execution(implementation: Identity, output: nat, status: Option<nat>)

  datatype Traits = Traits(external: bool, deterministic: bool)

  /** The registered implementations; what one returns may depend on the occasion of the call. */
  datatype Registry = Registry(known: map<Identity, Traits>, execute: (Identity, nat, nat) -> Execution)

  predicate Reproducible(r: Registry, id: Identity) {
    id in r.known && r.known[id].deterministic && !r.known[id].external
  }

  /** Deterministic, non-external implementations give the same answer on every occasion. */
  ghost predicate Faithful(r: Registry) {
    forall id, input, x, y | Reproducible(r, id) :: r.execute(id, input, x) == r.execute(id, input, y)
  }

  // ---------------------------------------------------------------- strict replay

  /** A replay in progress or stopped by a mismatch, with the number of checked steps. */
  datatype Progress = Running(checked: nat, differences: seq<Difference>) | Stopped(checked: nat, mismatch: Mismatch)

  function StrictMismatch(s: Step, e: Execution): Option<Mismatch> {
    if Some(e.implementation) != s.implementation then Some(Mismatch(UNKNOWN_IMPLEMENTATION, Some(s.order)))
    else if e.output != s.expectedOutput then Some(Mismatch(OUTPUT_MISMATCH, Some(s.order)))
    else if e.status != s.expectedStatus then Some(Mismatch(OUTPUT_MISMATCH, Some(s.order)))
    else None
  }

  function StrictStep(p: Progress, s: Step, r: Registry, occasion: nat): Progress
    requires p.Running? && Coherent(s)
  {
    if s.policy.RECORDED? then Running(p.checked + 1, p.differences)
    else
      var id := s.implementation.value;
      if id !in r.known then Stopped(p.checked, Mismatch(UNKNOWN_IMPLEMENTATION, Some(s.order)))
      else if !Reproducible(r, id) then Stopped(p.checked, Mismatch(NONDETERMINISTIC_IMPLEMENTATION, Some(s.order)))
      else
        var mismatch := StrictMismatch(s, r.execute(id, s.input, occasion));
        if mismatch.Some? then Stopped(p.checked + 1, mismatch.value) else Running(p.checked + 1, p.differences)
  }

  /** Strict replay of the first `n` steps. */
  function Strict(steps: seq<Step>, r: Registry, occasion: nat, n: nat): Progress
    requires n <= |steps| && AllCoherent(steps)
  {
    if n == 0 then Running(0, [])
    else
      var p := Strict(steps, r, occasion, n - 1);
      if p.Stopped? then p else StrictStep(p, steps[n - 1], r, occasion)
  }

  // ---------------------------------------------------------------- tolerant replay

  datatype DifferenceKind = IMPLEMENTATION | PROVIDER | MODEL | CONFIGURATION | OUTPUT | STATUS | TIMING_SENSITIVE
  datatype Difference = Difference(order: nat, step: nat, kind: DifferenceKind)

  function Differs<T(==)>(s: Step, a: T, b: T, kind: DifferenceKind): seq<Difference> {
    if a != b then [Difference(s.order, s.id, kind)] else []
  }

  function Differences(s: Step, e: Execution): seq<Difference>
    requires s.implementation.Some?
  {
    var x, y := s.implementation.value, e.implementation;
    Differs(s, x.id, y.id, IMPLEMENTATION) + Differs(s, x.version, y.version, IMPLEMENTATION)
    + Differs(s, x.provider, y.provider, PROVIDER) + Differs(s, x.model, y.model, MODEL)
    + Differs(s, x.configuration, y.configuration, CONFIGURATION)
    + Differs(s, s.expectedOutput, e.output, OUTPUT)
    + Differs(s, s.expectedStatus, e.status, if s.timingSensitive then TIMING_SENSITIVE else STATUS)
  }

  /** An execution differs in nothing exactly when strict replay accepts it. */
  lemma NoDifferenceIff(s: Step, e: Execution)
    requires s.implementation.Some?
    ensures Differences(s, e) == [] <==> StrictMismatch(s, e).None?
  {
    var x, y := s.implementation.value, e.implementation;
    assert x == y <==> x.id == y.id && x.version == y.version && x.provider == y.provider && x.model == y.model
                       && x.configuration == y.configuration;
    assert |Differences(s, e)| == |Differs(s, x.id, y.id, IMPLEMENTATION)|
      + |Differs(s, x.version, y.version, IMPLEMENTATION)| + |Differs(s, x.provider, y.provider, PROVIDER)|
      + |Differs(s, x.model, y.model, MODEL)| + |Differs(s, x.configuration, y.configuration, CONFIGURATION)|
      + |Differs(s, s.expectedOutput, e.output, OUTPUT)|
      + |Differs(s, s.expectedStatus, e.status, if s.timingSensitive then TIMING_SENSITIVE else STATUS)|;
  }

  /** Steps that tolerant replay passes over without checking. */
  predicate Skipped(s: Step) { s.policy.EXTERNAL? && !s.tolerantAllowed }

  function Selected(s: Step, selections: map<nat, Identity>): Identity
    requires s.implementation.Some?
  {
    if s.id in selections then selections[s.id] else s.implementation.value
  }

  function TolerantStep(p: Progress, s: Step, selections: map<nat, Identity>, r: Registry, occasion: nat): Progress
    requires p.Running? && (s.policy.RECORDED? || s.implementation.Some?)
  {
    if s.policy.RECORDED? then Running(p.checked + 1, p.differences)
    else if Skipped(s) then p
    else
      var id := Selected(s, selections);
      if id !in r.known then Stopped(p.checked, Mismatch(UNKNOWN_IMPLEMENTATION, Some(s.order)))
      else Running(p.checked + 1, p.differences + Differences(s, r.execute(id, s.input, occasion)))
  }

  /** Tolerant replay of the first `n` steps. */
  function Tolerant(steps: seq<Step>, selections: map<nat, Identity>, r: Registry, occasion: nat, n: nat): Progress
    requires n <= |steps| && forall i | 0 <= i < |steps| :: steps[i].policy.RECORDED? || steps[i].implementation.Some?
  {
    if n == 0 then Running(0, [])
    else
      var p := Tolerant(steps, selections, r, occasion, n - 1);
      if p.Stopped? then p else TolerantStep(p, steps[n - 1], selections, r, occasion)
  }

  predicate Verified(p: Progress) { p.Running? }
  predicate Matched(p: Progress) { p.Running? && p.differences == [] }

  // ---------------------------------------------------------------- the two modes together

  ghost predicate AllReproducible(steps: seq<Step>, r: Registry, n: nat)
    requires n <= |steps| && AllCoherent(steps)
  {
    forall i | 0 <= i < n && !steps[i].policy.RECORDED? :: Reproducible(r, steps[i].implementation.value)
  }

  /** Step by step: strict replay goes on exactly as long as tolerant replay without selections goes on, finds no
      difference, and every executed implementation is reproducible; both then have checked the same steps. */
  lemma {:induction false} StrictIffTolerant(steps: seq<Step>, r: Registry, x: nat, y: nat, n: nat)
    requires n <= |steps| && AllCoherent(steps) && Faithful(r)
    ensures var s, t := Strict(steps, r, x, n), Tolerant(steps, map[], r, y, n);
            && (Verified(s) <==> Matched(t) && AllReproducible(steps, r, n))
            && (Verified(s) ==> s.checked == t.checked == n && s.differences == [])
  {
    if n > 0 {
      StrictIffTolerant(steps, r, x, y, n - 1);
      var step := steps[n - 1];
      assert Coherent(step);
      if !step.policy.RECORDED? {
        var id := step.implementation.value;
        NoDifferenceIff(step, r.execute(id, step.input, y));
        if Reproducible(r, id) { assert r.execute(id, step.input, x) == r.execute(id, step.input, y); }
      }
    }
  }

  /** A session that strict replay verifies is one that tolerant replay without selections, on any other occasion,
      matches with no difference; conversely a match is verified exactly when all executed implementations are
      deterministic and not external. */
  lemma StrictImpliesTolerant(steps: seq<Step>, r: Registry, x: nat, y: nat)
    requires AllCoherent(steps) && Faithful(r)
    ensures var s, t := Strict(steps, r, x, |steps|), Tolerant(steps, map[], r, y, |steps|);
            && (Verified(s) ==> Matched(t) && t.checked <= s.checked)
            && (Matched(t) ==> (Verified(s) <==> AllReproducible(steps, r, |steps|)))
  {
    StrictIffTolerant(steps, r, x, y, |steps|);
  }

  // ---------------------------------------------------------------- the service loops

  method ReplayStrictly(steps: seq<Step>, r: Registry, occasion: nat) returns (p: Progress)
    requires AllCoherent(steps)
    ensures p == Strict(steps, r, occasion, |steps|)
  {
    var checked := 0;
    var n := 0;
    while n < |steps|
      invariant 0 <= n <= |steps| && Strict(steps, r, occasion, n) == Running(checked, [])
    {
      var step := steps[n];
      assert Coherent(step);
      if step.policy.RECORDED? {
        checked := checked + 1;
      } else {
        var id := step.implementation.value;
        if id !in r.known {
          p := Stopped(checked, Mismatch(UNKNOWN_IMPLEMENTATION, Some(step.order)));
          StrictStays(steps, r, occasion, n + 1);
          return;
        }
        if r.known[id].external || !r.known[id].deterministic {
          p := Stopped(checked, Mismatch(NONDETERMINISTIC_IMPLEMENTATION, Some(step.order)));
          StrictStays(steps, r, occasion, n + 1);
          return;
        }
        checked := checked + 1;
        var mismatch := StrictMismatch(step, r.execute(id, step.input, occasion));
        if mismatch.Some? {
          p := Stopped(checked, mismatch.value);
          StrictStays(steps, r, occasion, n + 1);
          return;
        }
      }
      n := n + 1;
    }
    return Running(checked, []);
  }

  lemma {:induction false} StrictStays(steps: seq<Step>, r: Registry, occasion: nat, n: nat)
    requires n <= |steps| && AllCoherent(steps) && Strict(steps, r, occasion, n).Stopped?
    ensures Strict(steps, r, occasion, |steps|) == Strict(steps, r, occasion, n)
    decreases |steps| - n
  {
    if n < |steps| { StrictStays(steps, r, occasion, n + 1); }
  }

  method ReplayTolerantly(steps: seq<Step>, selections: map<nat, Identity>, r: Registry, occasion: nat)
    returns (p: Progress)
    requires AllCoherent(steps)
    ensures p == Tolerant(steps, selections, r, occasion, |steps|)
  {
    hide Differences;
    var checked, differences := 0, [];
    var n := 0;
    while n < |steps|
      invariant 0 <= n <= |steps|
      invariant Tolerant(steps, selections, r, occasion, n) == Running(checked, differences)
    {
      var step := steps[n];
      assert Coherent(step);
      if step.policy.RECORDED? {
        checked := checked + 1;
      } else if !(step.policy.EXTERNAL? && !step.tolerantAllowed) {
        var id := Selected(step, selections);
        if id !in r.known {
          p := Stopped(checked, Mismatch(UNKNOWN_IMPLEMENTATION, Some(step.order)));
          TolerantStays(steps, selections, r, occasion, n + 1);
          return;
        }
        checked := checked + 1;
        differences := differences + Differences(step, r.execute(id, step.input, occasion));
      }
      n := n + 1;
    }
    return Running(checked, differences);
  }

  lemma {:induction false} TolerantStays(
    steps: seq<Step>, selections: map<nat, Identity>, r: Registry, occasion: nat, n: nat)
    requires n <= |steps| && AllCoherent(steps) && Tolerant(steps, selections, r, occasion, n).Stopped?
    ensures Tolerant(steps, selections, r, occasion, |steps|) == Tolerant(steps, selections, r, occasion, n)
    decreases |steps| - n
  {
    if n < |steps| { TolerantStays(steps, selections, r, occasion, n + 1); }
  }

  // ---------------------------------------------------------------- bundles of trajectories

  /** What bundle verification runs with; without a registry no bundle can be verified. */
  datatype Marl = Marl(
    codec: Bundles.Codec, digest: Records.Digest, limits: Bundles.Limits, registry: Option<Records.Registry>)

  function VerifyOne(w: Marl, r: Records.Registry, b: Bundles.Bundle): Bundles.Verification {
    Bundles.Verify(w.codec, w.digest, r, w.limits, true, b)
  }

  predicate AllVerified(w: Marl, bundles: seq<Bundles.Bundle>) {
    bundles == []
    || (w.registry.Some?
        && forall i | 0 <= i < |bundles| :: VerifyOne(w, w.registry.value, bundles[i]).outcome.VERIFIED?)
  }

  function BundleMismatch(v: Bundles.Verification): Mismatch {
    Mismatch(MARL_REPLAY_FAILED, if v.index.Some? then Some(v.index.value + 1) else None)
  }

  /** What is wrong with the bundles: no registry, or the failure of the first that is not VERIFIED. */
  ghost predicate MarlFault(w: Marl, bundles: seq<Bundles.Bundle>, m: Mismatch) {
    if w.registry.None? then m == Mismatch(UNKNOWN_IMPLEMENTATION, None)
    else exists i | 0 <= i < |bundles| :: FirstUnverified(w, w.registry.value, bundles, i, m)
  }

  predicate FirstUnverified(w: Marl, r: Records.Registry, bundles: seq<Bundles.Bundle>, i: nat, m: Mismatch)
    requires i < |bundles|
  {
    && (forall j | 0 <= j < i :: VerifyOne(w, r, bundles[j]).outcome.VERIFIED?)
    && !VerifyOne(w, r, bundles[i]).outcome.VERIFIED? && m == BundleMismatch(VerifyOne(w, r, bundles[i]))
  }

  method VerifyMarl(w: Marl, bundles: seq<Bundles.Bundle>) returns (r: Option<Mismatch>)
    ensures r.None? <==> AllVerified(w, bundles)
    ensures r.Some? ==> MarlFault(w, bundles, r.value)
  {
    hide Bundles.Verify;
    if bundles == [] { return None; }
    if w.registry.None? { return Some(Mismatch(UNKNOWN_IMPLEMENTATION, None)); }
    var i := 0;
    while i < |bundles|
      invariant 0 <= i <= |bundles|
      invariant forall j | 0 <= j < i :: VerifyOne(w, w.registry.value, bundles[j]).outcome.VERIFIED?
    {
      var v := Bundles.VerifyBundle(w.codec, w.digest, w.registry.value, w.limits, true, bundles[i]);
      if !v.outcome.VERIFIED? {
        assert FirstUnverified(w, w.registry.value, bundles, i, BundleMismatch(v));
        return Some(BundleMismatch(v));
      }
      i := i + 1;
    }
    return None;
  }

  // ---------------------------------------------------------------- a live session

  /** A session that a launcher started, and the identities it took. */
  datatype Launch = Launch(source: nat, session: nat, manifest: nat, events: seq<nat>, results: seq<nat>)

  function HistoricalIds(h: Historical): set<nat> {
    (set e | e in h.recorded :: e.id) + (set s | s in h.steps :: s.id) + {h.manifest.reference, h.manifest.session}
  }

  function NewIds(l: Launch): set<nat> {
    {l.session, l.manifest} + (set e | e in l.events) + (set r | r in l.results)
  }

  /** A live session names its source and shares no identity with it. */
  predicate Separate(h: Historical, l: Launch) {
    l.source == h.manifest.session && HistoricalIds(h) !! NewIds(l)
  }

  function Live(h: Historical, launch: Option<Launch>): Report {
    if launch.None? then Failed(Mismatch(LIVE_LAUNCH_UNAVAILABLE, None), 0)
    else if !Separate(h, launch.value) then Failed(Mismatch(INVALID_LIVE_IDENTITY, None), 0)
    else Report(LIVE_STARTED, true, false, 0, [], None, launch)
  }

  method StartLive(h: Historical, launch: Option<Launch>) returns (r: Report)
    ensures r == Live(h, launch)
  {
    if launch.None? { return Failed(Mismatch(LIVE_LAUNCH_UNAVAILABLE, None), 0); }
    if launch.value.source != h.manifest.session { return Failed(Mismatch(INVALID_LIVE_IDENTITY, None), 0); }
    var common := HistoricalIds(h) * NewIds(launch.value);
    assert common == {} <==> HistoricalIds(h) !! NewIds(launch.value) by {
      forall id | id in HistoricalIds(h) && id in NewIds(launch.value) ensures id in common {}
    }
    if common != {} { return Failed(Mismatch(INVALID_LIVE_IDENTITY, None), 0); }
    return Report(LIVE_STARTED, true, false, 0, [], None, launch);
  }

  // ---------------------------------------------------------------- a whole replay

  datatype Mode = STRICT | TOLERANT | LIVE

  datatype Manifest = Manifest(workspace: nat, session: nat, reference: nat)

  datatype Historical = Historical(
    manifest: Manifest, recorded: seq<LedgerEvent>, steps: seq<Step>, bundles: seq<Bundles.Bundle>)

  datatype Request = Request(manifest: Manifest, mode: Mode, selections: map<nat, Identity>)

  /** What the source, the ledger and the launcher answer, and the implementations at hand. */
  datatype World = World(
    historical: Option<Historical>, ledger: seq<LedgerEvent>, verification: Verification, marl: Marl,
    registry: Registry, launch: Option<Launch>)

  datatype Verdict = VERIFIED | MATCHED | DIFFERENT | FAILED | LIVE_STARTED

  datatype Report = Report(
    verdict: Verdict, integrityValid: bool, identical: bool, checked: nat, differences: seq<Difference>,
    mismatch: Option<Mismatch>, launch: Option<Launch>)

  function Failed(m: Mismatch, checked: nat): Report {
    Report(FAILED, !m.reason.LEDGER_INTEGRITY? && !m.reason.LEDGER_MISMATCH?, false, checked, [], Some(m), None)
  }

  function ConcludeStrict(p: Progress): Report {
    match p
    case Stopped(checked, m) => Failed(m, checked)
    case Running(checked, _) => Report(VERIFIED, true, true, checked, [], None, None)
  }

  function ConcludeTolerant(p: Progress): Report {
    match p
    case Stopped(checked, m) => Failed(m, checked)
    case Running(checked, differences) =>
      Report(if differences == [] then MATCHED else DIFFERENT, true, differences == [], checked, differences, None,
             None)
  }

  predicate Identified(q: Request, h: Historical) {
    && q.manifest == h.manifest
    && forall id | id in q.selections :: exists i | 0 <= i < |h.steps| :: h.steps[i].id == id
  }

  /** Strict requests cannot select implementations. */
  predicate ValidRequest(q: Request) { q.mode.STRICT? ==> q.selections == map[] }

  /** What a replay reports once every check before the re-execution has passed. */
  function Reexecuted(q: Request, h: Historical, w: World, occasion: nat): Report
    requires AllCoherent(h.steps)
  {
    match q.mode
    case STRICT => ConcludeStrict(Strict(h.steps, w.registry, occasion, |h.steps|))
    case TOLERANT => ConcludeTolerant(Tolerant(h.steps, q.selections, w.registry, occasion, |h.steps|))
    case LIVE => Live(h, w.launch)
  }

  /** The checks come in this order: the source exists, the request identifies it, the ledger is intact and as recorded,
      all bundles are VERIFIED. The first that fails is reported with nothing checked. */
  method Replay(q: Request, w: World, occasion: nat) returns (r: Report)
    requires Increasing(w.ledger) && ValidRequest(q)
    requires w.historical.Some? ==> AllCoherent(w.historical.value.steps)
    ensures w.historical.None? ==> r == Failed(Mismatch(HISTORICAL_REPLAY_UNAVAILABLE, None), 0)
    ensures w.historical.Some? ==>
              var h := w.historical.value;
              if !Identified(q, h) then r == Failed(Mismatch(MANIFEST_MISMATCH, None), 0)
              else if !w.verification.valid || !SameHashes(h.recorded, w.ledger) then
                exists m :: LedgerFault(h.recorded, w.ledger, w.verification, m) && r == Failed(m, 0)
              else if !AllVerified(w.marl, h.bundles) then
                exists m :: MarlFault(w.marl, h.bundles, m) && r == Failed(m, 0)
              else r == Reexecuted(q, h, w, occasion)
  {
    if w.historical.None? { return Failed(Mismatch(HISTORICAL_REPLAY_UNAVAILABLE, None), 0); }
    var h := w.historical.value;
    if q.manifest != h.manifest { return Failed(Mismatch(MANIFEST_MISMATCH, None), 0); }
    if exists id | id in q.selections :: forall i | 0 <= i < |h.steps| :: h.steps[i].id != id {
      return Failed(Mismatch(MANIFEST_MISMATCH, None), 0);
    }
    var mismatch := VerifyLedger(h.recorded, w.ledger, w.verification);
    if mismatch.Some? { return Failed(mismatch.value, 0); }
    mismatch := VerifyMarl(w.marl, h.bundles);
    if mismatch.Some? { return Failed(mismatch.value, 0); }
    match q.mode {
      case STRICT =>
        var p := ReplayStrictly(h.steps, w.registry, occasion);
        return ConcludeStrict(p);
      case TOLERANT =>
        var p := ReplayTolerantly(h.steps, q.selections, w.registry, occasion);
        return ConcludeTolerant(p);
      case LIVE =>
        r := StartLive(h, w.launch);
    }
  }
}
