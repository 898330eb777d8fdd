/** Where bundle verification promises less than its description: for each point an input, and exactly when the
    description holds. */
module MarlGaps {
  import opened Options
  import opened MarlRecords
  import opened MarlBundle
  import opened MarlExport

  // ---------------------------------------------------------------- one small episode

  function SampleObservation(h: Digest, index: nat, terminal: bool): Observation {
    var o := Observation(0, index, 0, 0, 0, Ref(9, 1), index, terminal, 0, [], [], h(SourcesPre([])),
                         h(FeaturesPre([])), 0);
    o.(hash := h(ObservationPre(o)))
  }

  function SampleDecision(h: Digest): Decision {
    var d := Decision(0, 0, NO_PROPOSAL, Ref(1, 1), 0, 0);
    d.(hash := h(DecisionPre(d)))
  }

  function SampleBoundary(h: Digest): Boundary {
    var b := Boundary(0, 0, SampleObservation(h, 0, false), None, SampleDecision(h), None, 0);
    b.(hash := h(BoundaryPre(b)))
  }

  function SampleReward(h: Digest, i: nat): Reward {
    var w := Reward(i, i, RewardRef(i), NO_DIRECTION, None, None, 0.0, NOT_APPLICABLE, Some(0), [], 0, 0);
    w.(hash := h(RewardPre(w)))
  }

  function SampleCredit(h: Digest, i: nat): Credit {
    var c := Credit(i, SampleReward(h, i).hash, true, 0.0, Ref(2, 1), 0, 0);
    c.(hash := h(CreditPre(c)))
  }

  function SampleRewards(h: Digest): (r: seq<Reward>)
    ensures |r| == 5 && forall i | 0 <= i < 5 :: r[i] == SampleReward(h, i)
  {
    seq(5, i requires 0 <= i < 5 => SampleReward(h, i))
  }

  function SampleCredits(h: Digest, n: nat): (r: seq<Credit>)
    ensures |r| == n && forall i | 0 <= i < n :: r[i] == SampleCredit(h, i)
  {
    seq(n, i requires 0 <= i < n => SampleCredit(h, i))
  }

  /** One terminal step without a proposal and with neutral rewards. */
  function SampleTransition(h: Digest): Transition {
    var t := Transition(0, 0, SampleBoundary(h), SampleObservation(h, 1, true), SampleRewards(h), SampleCredits(h, 5),
                        true, 0);
    t.(hash := h(TransitionPre(t)))
  }

  function Sample(h: Digest, status: Status, marker: Option<Marker>): Episode {
    Episode(0, 0, 0, 0, 0, status, [SampleTransition(h)], None, marker)
  }

  function SampleMarker(openIndex: nat, hash: Hash): Marker { Marker(0, openIndex, 0, None, hash) }

  const REGISTRY := Registry(
    {}, (ref, snapshot) => 0, {Ref(1, 1)}, (ref: Ref, b: Boundary) => b.decision,
    {RewardRef(0), RewardRef(1), RewardRef(2), RewardRef(3), RewardRef(4)}, (ref, pre, post, direction) => 0.0,
    {Ref(2, 1)})

  lemma {:induction false} SampleConserves(h: Digest, n: nat, component: nat)
    ensures CreditSum(SampleCredits(h, n), component) == 0.0
    ensures CreditCount(SampleCredits(h, n), component) == if component < n then 1 else 0
  {
    if n > 0 {
      SampleConserves(h, n - 1, component);
      assert SampleCredits(h, n)[..n - 1] == SampleCredits(h, n - 1);
    }
  }

  lemma SampleShape(h: Digest)
    ensures TransitionOk(SampleTransition(h))
  {
    hide CreditSum, CreditCount;
    var t := SampleTransition(h);
    forall j | 0 <= j < 5
      ensures CreditSum(t.credits, t.rewards[j].component) == 0.0
      ensures CreditCount(t.credits, t.rewards[j].component) == 1
    {
      SampleConserves(h, 5, j);
    }
    forall i | 0 <= i < 5
      ensures exists j | 0 <= j < 5 ::
                t.rewards[j].component == t.credits[i].component && t.rewards[j].hash == t.credits[i].componentHash
    {
      assert t.rewards[i].component == t.credits[i].component;
    }
  }

  lemma SampleHashed(h: Digest)
    ensures TransitionHashed(h, SampleTransition(h))
  {
    var t := SampleTransition(h);
    forall i | 0 <= i < 5 ensures RewardHashed(h, t.rewards[i]) && CreditHashed(h, t.credits[i]) {
      assert SampleReward(h, i).(hash := 0).hash == 0;
    }
  }

  lemma SampleReproduced(h: Digest)
    ensures AllReproduced(REGISTRY, [SampleTransition(h)])
  {
    assert Reproduced(REGISTRY, SampleTransition(h));
  }

  /** The sample is valid, hashed, coherent and reproducible, as an open, a complete, or a cut-short episode. */
  lemma SampleIsGood(h: Digest, status: Status, marker: Option<Marker>)
    requires status.CUT_SHORT? <==> marker.Some?
    requires marker.Some? ==>
               marker.value.openIndex == 1 && marker.value.boundaryHash.None? && marker.value.episode == 0
    ensures var e := Sample(h, status, marker);
            EpisodeOk(e) && EpisodeHashed(h, e) && Coherent(e) && AllReproduced(REGISTRY, e.transitions)
            && AllOk(Records(e))
  {
    hide TransitionOk, TransitionHashed;
    SampleShape(h);
    SampleHashed(h);
    SampleReproduced(h);
  }

  /** There is a reader, and limits, that fit any one or two records: the inputs below exist. */
  lemma ReaderExists(h: Digest, e: Episode, implementations: Implementations, vs: seq<Json>)
    returns (c: Codec, limits: Limits)
    requires 1 <= |vs| <= 2 && !vs[0].ManifestJson? && !vs[|vs| - 1].ManifestJson?
    requires |vs| == 2 ==> vs[0] != vs[1]
    ensures Faithful(c) && WithinLimits(c, limits, Describe(c, h, e, implementations, vs), vs)
  {
    var first, last := vs[0], vs[|vs| - 1];
    var encode := (v: Json) => if v.ManifestJson? then [0] else if v == first then [1] else [2];
    var c0 := Codec(encode, (b: Bytes) => Value(first));
    var m := Describe(c0, h, e, implementations, vs);
    c := Codec(encode, (b: Bytes) =>
               if b == [0, LF] then Value(ManifestJson(m, true))
               else if b == [1, LF] then Value(first) else Value(last));
    assert PrintLines(c, vs) == PrintLines(c0, vs);
    assert Describe(c, h, e, implementations, vs) == m;
    limits := Limits(|Pack(c, m, vs).manifest|, |Pack(c, m, vs).trajectory|, |vs|);
    assert AllReadable(c, vs) by {
      forall i | 0 <= i < |vs| ensures Readable(c, vs[i]) {
        assert [1] + [LF] == [1, LF] && ([2] + [LF])[0] == 2 && [1, LF][0] == 1 && [0, LF][0] == 0;
      }
    }
    assert [0] + [LF] == [0, LF];
  }

  const NO_LISTS := Implementations([], [], [], [])

  // ---------------------------------------------------------------- the status OPEN

  /** That VERIFIED implies a complete episode holds of an accepted bundle exactly when its manifest is not OPEN. */
  lemma VerifiedIsCompleteIff(
    c: Codec, h: Digest, r: Registry, limits: Limits, b: Bundle, m: Manifest, vs: seq<Json>)
    requires Faithful(c) && Sealed(c, h, limits, b, m, vs) && !Verify(c, h, r, limits, true, b).outcome.FAILED?
    ensures (Verify(c, h, r, limits, true, b).outcome.VERIFIED? ==> m.status.COMPLETE?) <==> !m.status.OPEN?
    ensures m.status.OPEN? ==> MarkersOf(RecordsOf(vs)) == [] && BoundariesOf(RecordsOf(vs)) == []
  {
    hide Sealed, Verify, VerifyRecords, TransitionsOf, BoundariesOf, MarkersOf, PendingHashed;
    SealedRecords(c, h, limits, b, m, vs);
    SealedReachesRecords(c, h, r, limits, b, m, vs);
    RecordsVerifyIff(h, r, m, RecordsOf(vs));
  }

  /** The bundle of an open episode, which export refuses to write, is VERIFIED. */
  lemma OpenIsVerified(c: Codec, h: Digest, limits: Limits)
    requires Faithful(c)
    requires var e := Sample(h, OPEN, None);
             WithinLimits(c, limits, ManifestOf(c, h, e), Complete(Records(e)))
    ensures var e := Sample(h, OPEN, None);
            var b := Pack(c, ManifestOf(c, h, e), Complete(Records(e)));
            Export(c, h, e).None? && Verify(c, h, REGISTRY, limits, true, b).outcome.VERIFIED?
  {
    hide Verify, Records, AllOk, EpisodeOk, EpisodeHashed, Coherent, AllReproduced, Describe, WithinLimits, Sample,
         ImplementationsOf;
    var e := Sample(h, OPEN, None);
    SampleIsGood(h, OPEN, None);
    StatusOfSample(h, OPEN, None);
    CompleteRecords(Records(e));
    PackedIff(c, h, REGISTRY, limits, e, ImplementationsOf(e.transitions), Complete(Records(e)));
  }

  lemma StatusOfSample(h: Digest, status: Status, marker: Option<Marker>)
    ensures Sample(h, status, marker).status == status
  {
  }

  // ---------------------------------------------------------------- pinned implementations

  function ListOf(i: Implementations, attribute: Attribute): seq<Ref> {
    match attribute
    case OBSERVATION => i.observation
    case REWARD => i.reward
    case CREDIT => i.credit
    case COORDINATOR => i.coordinator
  }

  /** Each list names exactly the implementations that the transitions used, in ascending order. */
  ghost predicate Pinned(i: Implementations, ts: seq<Transition>) {
    forall attribute :: Ascending(ListOf(i, attribute))
                        && forall ref :: ref in ListOf(i, attribute) <==> ref in AllRefs(ts, attribute)
  }

  /** A manifest pins the implementations of its transitions exactly when its lists are the ones that export writes. */
  lemma PinnedIff(i: Implementations, ts: seq<Transition>)
    ensures Pinned(i, ts) <==> i == ImplementationsOf(ts)
  {
    hide UniqueRefs, AllRefs, Ascending;
    forall attribute
      ensures Ascending(ListOf(ImplementationsOf(ts), attribute))
      ensures forall ref :: ref in ListOf(ImplementationsOf(ts), attribute) <==> ref in AllRefs(ts, attribute)
      ensures Pinned(i, ts) ==> ListOf(i, attribute) == ListOf(ImplementationsOf(ts), attribute)
    {
      UniqueRefsAscend(AllRefs(ts, attribute));
      if Pinned(i, ts) {
        AscendingIsCanonical(ListOf(i, attribute), ListOf(ImplementationsOf(ts), attribute));
      }
    }
    if Pinned(i, ts) {
      var own := ImplementationsOf(ts);
      assert ListOf(i, OBSERVATION) == ListOf(own, OBSERVATION) && ListOf(i, REWARD) == ListOf(own, REWARD);
      assert ListOf(i, CREDIT) == ListOf(own, CREDIT) && ListOf(i, COORDINATOR) == ListOf(own, COORDINATOR);
    }
  }

  /** The verdict does not depend on the lists: with any other lists that fit the limits it is the same. An accepted
      bundle therefore pins its implementations exactly when its lists happen to be those of its transitions. */
  lemma ListsAreNotRead(
    c: Codec, h: Digest, r: Registry, limits: Limits, b: Bundle, m: Manifest, vs: seq<Json>, other: Implementations)
    requires Faithful(c) && Sealed(c, h, limits, b, m, vs)
    requires WithinLimits(c, limits, m.(implementations := other), vs)
    ensures Verify(c, h, r, limits, true, Pack(c, m.(implementations := other), vs))
         == Verify(c, h, r, limits, true, b)
  {
    hide Verify, VerifyRecords, AllRecords, RecordsOf, Join, PrintLines, TransitionsOf, BoundariesOf, MarkersOf;
    var m' := m.(implementations := other);
    SealedReachesRecords(c, h, r, limits, b, m, vs);
    SealedReachesRecords(c, h, r, limits, Pack(c, m', vs), m', vs);
    SameStages(h, r, m, m', RecordsOf(vs));
  }

  lemma SameStages(h: Digest, r: Registry, m: Manifest, m': Manifest, rs: seq<Record>)
    requires m' == m.(implementations := m'.implementations)
    ensures VerifyRecords(h, r, m', rs) == VerifyRecords(h, r, m, rs)
  {
    hide OrderOk, EpisodeOk, EpisodeHash, PendingHashed, TransitionHashed, ReplayTransition, TransitionsOf,
         BoundariesOf, MarkersOf;
    if TransitionsOf(rs) != [] { assert Rebuilt(m', rs) == Rebuilt(m, rs); }
    assert ReferencesOk(m', rs) <==> ReferencesOk(m, rs);
  }

  /** A complete episode under a manifest that names no implementation at all is VERIFIED. */
  lemma UnpinnedIsVerified(c: Codec, h: Digest, limits: Limits)
    requires Faithful(c)
    requires var e := Sample(h, COMPLETE, None);
             WithinLimits(c, limits, Describe(c, h, e, NO_LISTS, Complete(Records(e))), Complete(Records(e)))
    ensures var e := Sample(h, COMPLETE, None);
            var m := Describe(c, h, e, NO_LISTS, Complete(Records(e)));
            && Verify(c, h, REGISTRY, limits, true, Pack(c, m, Complete(Records(e)))).outcome.VERIFIED?
            && !Pinned(m.implementations, e.transitions)
  {
    hide Verify, Records, AllOk, EpisodeOk, EpisodeHashed, Coherent, AllReproduced, WithinLimits, EpisodeHash;
    var e := Sample(h, COMPLETE, None);
    SampleIsGood(h, COMPLETE, None);
    CompleteRecords(Records(e));
    PackedIff(c, h, REGISTRY, limits, e, NO_LISTS, Complete(Records(e)));
    SampleCoordinator(h);
  }

  lemma SampleCoordinator(h: Digest)
    ensures !Pinned(NO_LISTS, [SampleTransition(h)])
  {
    var ts := [SampleTransition(h)];
    assert AllRefs(ts, COORDINATOR) == [Ref(1, 1)];
    assert Ref(1, 1) in AllRefs(ts, COORDINATOR) && Ref(1, 1) !in ListOf(NO_LISTS, COORDINATOR);
  }

  // ---------------------------------------------------------------- the hash of a marker

  /** The episode with any other value in place of the marker's own hash. */
  function Forged(e: Episode, x: Hash): Episode
    requires e.marker.Some?
  {
    e.(marker := Some(e.marker.value.(hash := x)))
  }

  /** For an episode cut short that is accepted as it is: with any other hash in its marker it is accepted exactly when
      no boundary is pending or the hash is right. */
  lemma MarkerHashCheckedIff(
    c: Codec, h: Digest, r: Registry, limits: Limits, e: Episode, implementations: Implementations, x: Hash)
    requires Faithful(c) && EpisodeOk(e) && e.marker.Some? && AllOk(Records(e))
    requires EpisodeHashed(h, e) && Coherent(e) && AllReproduced(r, e.transitions)
    requires var vs := Complete(Records(Forged(e, x)));
             WithinLimits(c, limits, Describe(c, h, Forged(e, x), implementations, vs), vs)
    ensures var vs := Complete(Records(Forged(e, x)));
            var b := Pack(c, Describe(c, h, Forged(e, x), implementations, vs), vs);
            !Verify(c, h, r, limits, true, b).outcome.FAILED?
            <==> e.pending.None? || MarkerHashed(h, Forged(e, x).marker.value)
  {
    hide Verify, AllReproduced, WithinLimits, Describe, TransitionHashed, BoundaryHashed, RecordOk;
    var f := Forged(e, x);
    assert AllOk(Records(f)) by { ForgedRecords(e, x); }
    CompleteRecords(Records(f));
    PackedIff(c, h, r, limits, f, implementations, Complete(Records(f)));
  }

  lemma ForgedRecords(e: Episode, x: Hash)
    requires e.marker.Some? && AllOk(Records(e))
    ensures AllOk(Records(Forged(e, x)))
  {
    var rs, fs := Records(e), Records(Forged(e, x));
    forall i | 0 <= i < |fs| ensures RecordOk(fs[i]) {
      assert RecordOk(rs[i]);
      if i < |fs| - 1 { assert fs[i] == rs[i]; }
    }
  }

  function WrongMarker(h: Digest): Marker { SampleMarker(1, h(MarkerPre(SampleMarker(1, 0))) + 1) }

  /** A marker with a wrong hash passes with valid integrity when no boundary is pending. */
  lemma WrongMarkerIsAccepted(c: Codec, h: Digest, limits: Limits)
    requires Faithful(c)
    requires var e := Sample(h, CUT_SHORT, Some(WrongMarker(h)));
             WithinLimits(c, limits, ManifestOf(c, h, e), Complete(Records(e)))
    ensures var e := Sample(h, CUT_SHORT, Some(WrongMarker(h)));
            && !MarkerHashed(h, WrongMarker(h)) && Export(c, h, e).Some?
            && var v := Verify(c, h, REGISTRY, limits, true, Export(c, h, e).value);
               v.outcome.INCOMPLETE? && v.integrityValid
  {
    hide Verify, Records, AllOk, EpisodeOk, EpisodeHashed, Coherent, AllReproduced, Describe, WithinLimits,
         ImplementationsOf;
    assert WrongMarker(h).(hash := 0) == SampleMarker(1, 0);
    SampleIsGood(h, CUT_SHORT, Some(WrongMarker(h)));
    ExportVerifiesIff(c, h, REGISTRY, limits, Sample(h, CUT_SHORT, Some(WrongMarker(h))));
  }

  // ---------------------------------------------------------------- defaulted members

  /** The lines of an accepted trajectory are the canonical form of the records they were parsed into exactly when no
      record leaves out a defaulted member. */
  lemma LinesAreCanonicalIff(c: Codec, h: Digest, limits: Limits, b: Bundle, m: Manifest, vs: seq<Json>)
    requires Faithful(c) && Sealed(c, h, limits, b, m, vs) && AllReadable(c, Complete(RecordsOf(vs)))
    ensures b.trajectory == Join(PrintLines(c, Complete(RecordsOf(vs))))
       <==> forall i | 0 <= i < |vs| :: vs[i].RecordJson? && vs[i].complete
  {
    hide Join, PrintLines, Clean, RecordOk;
    var ws := Complete(RecordsOf(vs));
    if b.trajectory == Join(PrintLines(c, ws)) { JoinedLines(c, vs, ws); }
    if forall i | 0 <= i < |vs| :: vs[i].RecordJson? && vs[i].complete { assert vs == ws; }
  }

  /** A complete episode whose record leaves out its schema version is VERIFIED. */
  lemma SparseIsVerified(c: Codec, h: Digest, limits: Limits)
    requires Faithful(c)
    requires var e := Sample(h, COMPLETE, None);
             var vs := [RecordJson(TransitionRecord(SampleTransition(h)), false)];
             WithinLimits(c, limits, Describe(c, h, e, ImplementationsOf(e.transitions), vs), vs)
    ensures var e := Sample(h, COMPLETE, None);
            var vs := [RecordJson(TransitionRecord(SampleTransition(h)), false)];
            var b := Pack(c, Describe(c, h, e, ImplementationsOf(e.transitions), vs), vs);
            Verify(c, h, REGISTRY, limits, true, b).outcome.VERIFIED? && Version(vs[0]).None?
  {
    hide Verify, AllOk, EpisodeOk, EpisodeHashed, Coherent, AllReproduced, Describe, WithinLimits, ImplementationsOf,
         RecordOk, SampleTransition;
    var e := Sample(h, COMPLETE, None);
    var vs := [RecordJson(TransitionRecord(SampleTransition(h)), false)];
    SampleIsGood(h, COMPLETE, None);
    assert RecordOk(TransitionRecord(SampleTransition(h))) by { SampleRecord(h); }
    assert RecordsOf(vs) == Records(e);
    PackedIff(c, h, REGISTRY, limits, e, ImplementationsOf(e.transitions), vs);
  }

  lemma SampleRecord(h: Digest)
    ensures RecordOk(TransitionRecord(SampleTransition(h)))
  {
    SampleShape(h);
  }

  // ---------------------------------------------------------------- episodes that export but do not verify

  /** An episode that was cut short before its first transition. */
  function Unstarted(): Episode { Episode(0, 0, 0, 0, 0, CUT_SHORT, [], None, Some(SampleMarker(0, 0))) }

  /** It is valid and exported, but its bundle fails. */
  lemma UnstartedFails(c: Codec, h: Digest, r: Registry, limits: Limits)
    requires Faithful(c)
    requires WithinLimits(c, limits, ManifestOf(c, h, Unstarted()), Complete(Records(Unstarted())))
    ensures EpisodeOk(Unstarted()) && EpisodeHashed(h, Unstarted()) && Export(c, h, Unstarted()).Some?
    ensures Verify(c, h, r, limits, true, Export(c, h, Unstarted()).value).outcome.FAILED?
  {
    hide Verify, Describe, WithinLimits, ImplementationsOf;
    assert AllOk(Records(Unstarted()));
    ExportVerifiesIff(c, h, r, limits, Unstarted());
  }
}
