/** The order in which verification reports failures, against the precedence its description lists. */
module MarlPrecedence {
  import opened Options
  import opened MarlRecords
  import opened MarlBundle
  import opened MarlExport
  import opened MarlGaps

  /** The listed precedence, from the code that comes first. */
  function Precedence(code: Code): nat {
    match code
    case BUNDLE_ENTRY_SET => 1
    case RESOURCE_LIMIT_EXCEEDED => 2
    case INVALID_UTF8 => 3
    case INVALID_JSON => 4
    case UNSUPPORTED_SCHEMA_VERSION => 5
    case SCHEMA_VIOLATION => 6
    case NONCANONICAL_ENCODING => 7
    case MANIFEST_MISMATCH => 8
    case ORDER_VIOLATION => 9
    case HASH_MISMATCH => 10
    case REFERENCE_MISMATCH => 11
    case UNKNOWN_IMPLEMENTATION => 12
    case REPLAY_MISMATCH => 13
    case EPISODE_INCOMPLETE => 14
  }

  // ---------------------------------------------------------------- the codes that apply

  /** A hash inside the records is wrong. */
  predicate ChildFault(h: Digest, rs: seq<Record>) {
    var ts, bs := TransitionsOf(rs), BoundariesOf(rs);
    || (exists i | 0 <= i < |ts| :: !TransitionHashed(h, ts[i]))
    || (bs != [] && !PendingHashed(h, bs[0], Head(MarkersOf(rs))))
  }

  predicate ReferenceFault(m: Manifest, rs: seq<Record>) {
    !ReferencesOk(m, rs) || TransitionsOf(rs) == [] || !EpisodeOk(Rebuilt(m, rs))
  }

  /** The hash of the episode, where there is one to compute, is not the one in the manifest. */
  predicate EpisodeFault(h: Digest, m: Manifest, rs: seq<Record>) {
    TransitionsOf(rs) != [] && EpisodeHash(h, Rebuilt(m, rs)) != m.episodeHash
  }

  /** The checks of all transitions, one after the other. */
  function AllChecks(r: Registry, ts: seq<Transition>): seq<Option<Code>> {
    if ts == [] then [] else AllChecks(r, ts[..|ts| - 1]) + TransitionChecks(r, ts[|ts| - 1])
  }

  /** Whether a failure applies to the records on its own, whatever else is wrong with them. */
  predicate Applies(h: Digest, r: Registry, m: Manifest, rs: seq<Record>, code: Code) {
    match code
    case ORDER_VIOLATION => !OrderOk(rs)
    case HASH_MISMATCH => ChildFault(h, rs) || EpisodeFault(h, m, rs)
    case REFERENCE_MISMATCH => ReferenceFault(m, rs)
    case UNKNOWN_IMPLEMENTATION => Some(code) in AllChecks(r, TransitionsOf(rs))
    case REPLAY_MISMATCH => Some(code) in AllChecks(r, TransitionsOf(rs))
    case EPISODE_INCOMPLETE => m.status.CUT_SHORT?
    case _ => false
  }

  // ---------------------------------------------------------------- the first failing check

  lemma {:induction false} FirstOfConcat(a: seq<Option<Code>>, b: seq<Option<Code>>)
    ensures First(a + b) == if First(a).Some? then First(a) else First(b)
  {
    if a == [] {
      assert a + b == b;
    } else {
      assert (a + b)[1..] == a[1..] + b;
      FirstOfConcat(a[1..], b);
    }
  }

  lemma {:induction false} FirstOccurs(checks: seq<Option<Code>>)
    ensures First(checks).Some? ==> First(checks) in checks
  {
    if checks != [] { FirstOccurs(checks[1..]); }
  }

  lemma TransitionCodes(r: Registry, t: Transition)
    ensures forall k | 0 <= k < |TransitionChecks(r, t)| ::
              TransitionChecks(r, t)[k] in {None, Some(UNKNOWN_IMPLEMENTATION), Some(REPLAY_MISMATCH)}
  {
  }

  lemma {:induction false} CheckCodes(r: Registry, ts: seq<Transition>)
    ensures forall x | x in AllChecks(r, ts) :: x in {None, Some(UNKNOWN_IMPLEMENTATION), Some(REPLAY_MISMATCH)}
  {
    hide TransitionChecks;
    if ts != [] {
      CheckCodes(r, ts[..|ts| - 1]);
      TransitionCodes(r, ts[|ts| - 1]);
    }
  }

  /** The replay loop reports the first failing check of all. */
  lemma {:induction false} LoopReportsFirst(r: Registry, ts: seq<Transition>, n: nat)
    requires n <= |ts|
    ensures var f := FirstUnreproduced(r, ts, n);
            First(AllChecks(r, ts[..n])) == if f.Some? then ReplayTransition(r, ts[f.value]) else None
  {
    hide TransitionChecks;
    if n > 0 {
      LoopReportsFirst(r, ts, n - 1);
      assert ts[..n][..n - 1] == ts[..n - 1];
      FirstOfConcat(AllChecks(r, ts[..n - 1]), TransitionChecks(r, ts[n - 1]));
    }
  }

  // ---------------------------------------------------------------- precedence

  /** The hash of the episode comes after the references although its code precedes theirs. */
  predicate LateHash(h: Digest, m: Manifest, rs: seq<Record>) {
    OrderOk(rs) && !ChildFault(h, rs) && ReferenceFault(m, rs) && EpisodeFault(h, m, rs)
  }

  /** In authentic records a mismatch comes before every failing check for an unknown implementation, and there is
      one. */
  predicate LateUnknown(h: Digest, r: Registry, m: Manifest, rs: seq<Record>) {
    && Authentic(h, m, rs) && First(AllChecks(r, TransitionsOf(rs))) == Some(REPLAY_MISMATCH)
    && Some(UNKNOWN_IMPLEMENTATION) in AllChecks(r, TransitionsOf(rs))
  }

  lemma AuthenticIsFaultless(h: Digest, m: Manifest, rs: seq<Record>)
    ensures Authentic(h, m, rs)
       <==> OrderOk(rs) && !ChildFault(h, rs) && !ReferenceFault(m, rs) && !EpisodeFault(h, m, rs)
  {
    hide OrderOk, TransitionHashed, PendingHashed, ReferencesOk, EpisodeOk, EpisodeHash, TransitionsOf, BoundariesOf,
         MarkersOf, Rebuilt;
  }

  /** What the last stages report, fault by fault. */
  lemma ReportedCode(h: Digest, r: Registry, m: Manifest, rs: seq<Record>)
    ensures VerifyRecords(h, r, m, rs).code
         == if !OrderOk(rs) then Some(ORDER_VIOLATION)
            else if ChildFault(h, rs) then Some(HASH_MISMATCH)
            else if ReferenceFault(m, rs) then Some(REFERENCE_MISMATCH)
            else if EpisodeFault(h, m, rs) then Some(HASH_MISMATCH)
            else if First(AllChecks(r, TransitionsOf(rs))).Some? then First(AllChecks(r, TransitionsOf(rs)))
            else if m.status.CUT_SHORT? then Some(EPISODE_INCOMPLETE) else None
  {
    hide OrderOk, TransitionHashed, PendingHashed, ReferencesOk, EpisodeOk, EpisodeHash, TransitionsOf, BoundariesOf,
         MarkersOf, Rebuilt, AllChecks, ReplayTransition;
    var ts := TransitionsOf(rs);
    LoopReportsFirst(r, ts, |ts|);
    assert ts[..|ts|] == ts;
  }

  /** A reported code applies, and none is reported exactly when none applies. */
  lemma ReportedApplies(h: Digest, r: Registry, m: Manifest, rs: seq<Record>)
    ensures var code := VerifyRecords(h, r, m, rs).code;
            && (code.Some? ==> Applies(h, r, m, rs, code.value))
            && (code.None? <==> forall k :: !Applies(h, r, m, rs, k))
  {
    hide OrderOk, ChildFault, ReferenceFault, EpisodeFault, AllChecks, VerifyRecords, TransitionsOf;
    var checks := AllChecks(r, TransitionsOf(rs));
    ReportedCode(h, r, m, rs);
    CheckCodes(r, TransitionsOf(rs));
    FirstOccurs(checks);
    FirstNone(checks);
    var code := VerifyRecords(h, r, m, rs).code;
    if code.Some? {
      assert Applies(h, r, m, rs, code.value);
    } else {
      assert Some(UNKNOWN_IMPLEMENTATION) !in checks && Some(REPLAY_MISMATCH) !in checks;
    }
  }

  /** The reported code is the first by precedence of all that apply exactly when no late episode hash and no late
      unknown implementation is among them. */
  lemma PrecedenceIff(h: Digest, r: Registry, m: Manifest, rs: seq<Record>)
    ensures var code := VerifyRecords(h, r, m, rs).code;
            (code.Some? ==> forall k | Applies(h, r, m, rs, k) :: Precedence(code.value) <= Precedence(k))
            <==> !LateHash(h, m, rs) && !LateUnknown(h, r, m, rs)
  {
    hide OrderOk, ChildFault, ReferenceFault, EpisodeFault, AllChecks, Authentic, VerifyRecords, TransitionsOf;
    ReportedCode(h, r, m, rs);
    AuthenticIsFaultless(h, m, rs);
    CheckCodes(r, TransitionsOf(rs));
    FirstOccurs(AllChecks(r, TransitionsOf(rs)));
    if LateHash(h, m, rs) { assert Applies(h, r, m, rs, HASH_MISMATCH); }
    if LateUnknown(h, r, m, rs) { assert Applies(h, r, m, rs, UNKNOWN_IMPLEMENTATION); }
    FirstNone(AllChecks(r, TransitionsOf(rs)));
  }

  // ---------------------------------------------------------------- two inputs

  function SampleManifest(h: Digest): Manifest {
    Manifest(0, COMPLETE, 0, 0, NO_LISTS, 0, 0, 1, EpisodeHash(h, Sample(h, COMPLETE, None)))
  }

  /** No reward implementation, and a coordinator that decides otherwise. */
  const POOR_REGISTRY := Registry(
    {}, (ref, snapshot) => 0, {Ref(1, 1)}, (ref: Ref, b: Boundary) => b.decision.(facts := b.decision.facts + 1), {},
    (ref, pre, post, direction) => 0.0, {})

  lemma PoorChecks(h: Digest)
    ensures var checks := AllChecks(POOR_REGISTRY, [SampleTransition(h)]);
            First(checks) == Some(REPLAY_MISMATCH) && Some(UNKNOWN_IMPLEMENTATION) in checks
  {
    var t := SampleTransition(h);
    var w, c := RewardChecks(POOR_REGISTRY, t.rewards), CreditChecks(POOR_REGISTRY, t.credits);
    assert TransitionChecks(POOR_REGISTRY, t) == [Some(REPLAY_MISMATCH)] + (w + c);
    assert w[0] == Some(UNKNOWN_IMPLEMENTATION) && (w + c)[0] == w[0];
    assert AllChecks(POOR_REGISTRY, [t]) == [Some(REPLAY_MISMATCH)] + (w + c);
    assert AllChecks(POOR_REGISTRY, [t])[1] == Some(UNKNOWN_IMPLEMENTATION);
  }

  /** In an authentic episode a decision that does not recompute hides that the reward implementations are unknown. */
  lemma MismatchHidesUnknown(h: Digest)
    ensures var rs, m := Records(Sample(h, COMPLETE, None)), SampleManifest(h);
            && VerifyRecords(h, POOR_REGISTRY, m, rs).code == Some(REPLAY_MISMATCH)
            && Applies(h, POOR_REGISTRY, m, rs, UNKNOWN_IMPLEMENTATION)
            && Precedence(UNKNOWN_IMPLEMENTATION) < Precedence(REPLAY_MISMATCH)
  {
    hide Sample, Records, Authentic, AllChecks, EpisodeHash, EpisodeOk, EpisodeHashed, Coherent, VerifyRecords, AllOk,
         AllReproduced, SampleTransition, TransitionsOf, OrderOk, ChildFault, ReferenceFault, EpisodeFault;
    var e, m := Sample(h, COMPLETE, None), SampleManifest(h);
    SampleIsGood(h, COMPLETE, None);
    SampleFields(h);
    PartsOfEpisode(e);
    AuthenticIff(h, m, e);
    AuthenticIsFaultless(h, m, Records(e));
    PoorChecks(h);
    ReportedCode(h, POOR_REGISTRY, m, Records(e));
  }

  lemma SampleFields(h: Digest)
    ensures var e := Sample(h, COMPLETE, None);
            && e.id == 0 && e.status == COMPLETE && e.environment == 0 && e.code == 0
            && e.transitions == [SampleTransition(h)]
  {
  }

  /** Under a manifest of another episode with a hash that fits neither, the wrong reference hides the wrong hash. */
  lemma ReferenceHidesHash(h: Digest, r: Registry)
    ensures var rs := Records(Sample(h, COMPLETE, None));
            var m := SampleManifest(h).(episode := 1);
            var m' := m.(episodeHash := EpisodeHash(h, Rebuilt(m, rs)) + 1);
            && VerifyRecords(h, r, m', rs).code == Some(REFERENCE_MISMATCH)
            && Applies(h, r, m', rs, HASH_MISMATCH)
            && Precedence(HASH_MISMATCH) < Precedence(REFERENCE_MISMATCH)
  {
    hide AllChecks, EpisodeHash, EpisodeOk, VerifyRecords, AllOk, AllReproduced, SampleTransition, TransitionsOf,
         BoundariesOf, MarkersOf, TransitionHashed, PendingHashed, OrderOk;
    var e := Sample(h, COMPLETE, None);
    var rs := Records(e);
    SampleIsGood(h, COMPLETE, None);
    PartsOfEpisode(e);
    SampleIsGapless(h);
    EpisodeOrder(e);
    var m := SampleManifest(h).(episode := 1);
    var m' := m.(episodeHash := EpisodeHash(h, Rebuilt(m, rs)) + 1);
    assert Rebuilt(m', rs) == Rebuilt(m, rs);
    SampleIsOther(h, m');
    ReportedCode(h, r, m', rs);
  }

  lemma SampleIsGapless(h: Digest)
    ensures Gapless(Sample(h, COMPLETE, None).transitions)
  {
  }

  lemma SampleIsOther(h: Digest, m: Manifest)
    requires m.episode == 1
    ensures !ReferencesOk(m, Records(Sample(h, COMPLETE, None)))
  {
    var rs := Records(Sample(h, COMPLETE, None));
    assert rs[0] == TransitionRecord(SampleTransition(h)) && EpisodeIdOf(rs[0]) == 0;
  }
}
