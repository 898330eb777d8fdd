/** Exporting a closed episode as a bundle, and how exports and accepted bundles relate. */
module MarlExport {
  import opened Options
  import opened MarlRecords
  import opened MarlBundle
  import opened Sorting

  // ---------------------------------------------------------------- the implementations of an episode

  datatype Attribute = OBSERVATION | REWARD | CREDIT | COORDINATOR

  /** The implementations a transition names, in the order of its parts. */
  function TransitionRefs(t: Transition, attribute: Attribute): seq<Ref> {
    match attribute
    case OBSERVATION => [t.boundary.observation.implementation, t.post.implementation]
    case REWARD => seq(|t.rewards|, i requires 0 <= i < |t.rewards| => t.rewards[i].implementation)
    case CREDIT => seq(|t.credits|, i requires 0 <= i < |t.credits| => t.credits[i].implementation)
    case COORDINATOR => [t.boundary.decision.implementation]
  }

  function AllRefs(ts: seq<Transition>, attribute: Attribute): seq<Ref> {
    if ts == [] then []
    else AllRefs(ts[..|ts| - 1], attribute) + TransitionRefs(ts[|ts| - 1], attribute)
  }

  /** By implementation, then by version. */
  predicate RefOrder(a: Ref, b: Ref) { a.id < b.id || (a.id == b.id && a.version <= b.version) }

  /** The keys of a dictionary filled in order. */
  function Keys(refs: seq<Ref>): (r: seq<Ref>) {
    if refs == [] then []
    else
      var rest := Keys(refs[..|refs| - 1]);
      if refs[|refs| - 1] in rest then rest else rest + [refs[|refs| - 1]]
  }

  function UniqueRefs(refs: seq<Ref>): seq<Ref> { Sort(RefOrder, Keys(refs)) }

  /** Ascending without repetition. */
  predicate Ascending(refs: seq<Ref>) {
    forall i, j | 0 <= i < j < |refs| :: RefOrder(refs[i], refs[j]) && refs[i] != refs[j]
  }

  lemma {:induction false} KeysOnce(refs: seq<Ref>)
    ensures forall x :: x in Keys(refs) <==> x in refs
    ensures forall x :: multiset(Keys(refs))[x] <= 1
  {
    if refs != [] {
      var n := |refs| - 1;
      KeysOnce(refs[..n]);
      assert refs == refs[..n] + [refs[n]];
    }
  }

  lemma RefOrderIsPreorder()
    ensures TotalPreorder(RefOrder)
  {
  }

  /** The list of a manifest is ascending and holds exactly the implementations that occur. */
  lemma UniqueRefsAscend(refs: seq<Ref>)
    ensures Ascending(UniqueRefs(refs)) && forall x :: x in UniqueRefs(refs) <==> x in refs
  {
    hide Sort, Keys;
    KeysOnce(refs);
    RefOrderIsPreorder();
    SortSorted(RefOrder, Keys(refs));
    SortPermutes(RefOrder, Keys(refs));
    MembersOfSort(RefOrder, Keys(refs));
    var s := UniqueRefs(refs);
    forall i, j | 0 <= i < j < |s| ensures s[i] != s[j] {
      if s[i] == s[j] { CountOfRepeated(s, i, j); }
    }
  }

  lemma HasMember(s: seq<Ref>)
    ensures s == [] || exists x :: x in s
  {
    if s != [] { assert s[0] in s; }
  }

  /** There is only one ascending list of the same implementations. */
  lemma {:induction false} AscendingIsCanonical(a: seq<Ref>, b: seq<Ref>)
    requires Ascending(a) && Ascending(b) && forall x :: x in a <==> x in b
    ensures a == b
  {
    if a == [] {
      HasMember(b);
    } else {
      assert a[0] in b && (b != [] ==> b[0] in a);
      var i :| 0 <= i < |b| && b[i] == a[0];
      var j :| 0 <= j < |a| && a[j] == b[0];
      assert a[0] == b[0];
      forall x ensures x in a[1..] <==> x in b[1..] {
        MemberOfRest(a, x);
        MemberOfRest(b, x);
      }
      AscendingIsCanonical(a[1..], b[1..]);
    }
  }

  lemma MemberOfRest(a: seq<Ref>, x: Ref)
    requires Ascending(a) && a != []
    ensures x in a[1..] <==> x in a && x != a[0]
  {
    assert a == [a[0]] + a[1..];
    if x in a[1..] {
      var i :| 0 <= i < |a[1..]| && a[1..][i] == x;
      assert a[i + 1] == x;
    }
  }

  lemma KeysNext(refs: seq<Ref>, x: Ref)
    ensures Keys(refs + [x]) == if x in Keys(refs) then Keys(refs) else Keys(refs) + [x]
  {
    assert (refs + [x])[..|refs|] == refs;
  }

  /** Fills a dictionary transition by transition and sorts its keys. */
  method CollectRefs(ts: seq<Transition>, attribute: Attribute) returns (r: seq<Ref>)
    ensures r == UniqueRefs(AllRefs(ts, attribute))
  {
    hide Sort, Keys, TransitionRefs;
    var keys: seq<Ref> := [];
    assert Keys([]) == [] by { NoKeys(); }
    var i := 0;
    while i < |ts|
      invariant 0 <= i <= |ts| && keys == Keys(AllRefs(ts[..i], attribute))
    {
      assert ts[..i + 1][..i] == ts[..i];
      keys := AddRefs(AllRefs(ts[..i], attribute), keys, TransitionRefs(ts[i], attribute));
      i := i + 1;
    }
    assert ts[..i] == ts;
    return Sort(RefOrder, keys);
  }

  lemma NoKeys()
    ensures Keys([]) == []
  {
  }

  method AddRefs(ghost before: seq<Ref>, known: seq<Ref>, refs: seq<Ref>) returns (keys: seq<Ref>)
    requires known == Keys(before)
    ensures keys == Keys(before + refs)
  {
    hide Keys;
    keys := known;
    var k := 0;
    assert before + refs[..0] == before;
    while k < |refs|
      invariant 0 <= k <= |refs| && keys == Keys(before + refs[..k])
    {
      assert before + refs[..k + 1] == before + refs[..k] + [refs[k]];
      KeysNext(before + refs[..k], refs[k]);
      if refs[k] !in keys { keys := keys + [refs[k]]; }
      k := k + 1;
    }
    assert refs[..k] == refs;
  }

  function ImplementationsOf(ts: seq<Transition>): Implementations {
    Implementations(UniqueRefs(AllRefs(ts, OBSERVATION)), UniqueRefs(AllRefs(ts, REWARD)),
                    UniqueRefs(AllRefs(ts, CREDIT)), UniqueRefs(AllRefs(ts, COORDINATOR)))
  }

  // ---------------------------------------------------------------- export

  function TransitionRecords(ts: seq<Transition>): (r: seq<Record>)
    ensures |r| == |ts| && forall i | 0 <= i < |ts| :: r[i] == TransitionRecord(ts[i])
  {
    seq(|ts|, i requires 0 <= i < |ts| => TransitionRecord(ts[i]))
  }

  function Records(e: Episode): seq<Record> {
    TransitionRecords(e.transitions)
    + (if e.pending.Some? then [BoundaryRecord(e.pending.value)] else [])
    + (if e.marker.Some? then [MarkerRecord(e.marker.value)] else [])
  }

  function Complete(rs: seq<Record>): (v: seq<Json>)
    ensures |v| == |rs| && forall i | 0 <= i < |rs| :: v[i] == RecordJson(rs[i], true)
  {
    seq(|rs|, i requires 0 <= i < |rs| => RecordJson(rs[i], true))
  }

  /** A manifest that fits an episode, a trajectory and any lists of implementations. */
  function Describe(c: Codec, h: Digest, e: Episode, implementations: Implementations, vs: seq<Json>): Manifest {
    var t := Join(PrintLines(c, vs));
    Manifest(e.id, e.status, e.environment, e.code, implementations, h(BytesPre(t)), |t|, |vs|, EpisodeHash(h, e))
  }

  function ManifestOf(c: Codec, h: Digest, e: Episode): Manifest {
    Describe(c, h, e, ImplementationsOf(e.transitions), Complete(Records(e)))
  }

  /** An OPEN episode is not exported. */
  function Export(c: Codec, h: Digest, e: Episode): Option<Bundle> {
    if e.status.OPEN? then None else Some(Pack(c, ManifestOf(c, h, e), Complete(Records(e))))
  }

  method ExportEpisode(c: Codec, h: Digest, e: Episode) returns (r: Option<Bundle>)
    ensures r == Export(c, h, e)
  {
    if e.status.OPEN? { return None; }
    var records: seq<Record> := TransitionRecords(e.transitions);
    if e.pending.Some? { records := records + [BoundaryRecord(e.pending.value)]; }
    if e.marker.Some? { records := records + [MarkerRecord(e.marker.value)]; }
    assert records == Records(e);
    var trajectory := Join(PrintLines(c, Complete(records)));
    var observation := CollectRefs(e.transitions, OBSERVATION);
    var reward := CollectRefs(e.transitions, REWARD);
    var credit := CollectRefs(e.transitions, CREDIT);
    var coordinator := CollectRefs(e.transitions, COORDINATOR);
    var manifest := Manifest(e.id, e.status, e.environment, e.code,
                             Implementations(observation, reward, credit, coordinator), h(BytesPre(trajectory)),
                             |trajectory|, |records|, EpisodeHash(h, e));
    return Some(Bundle(LineOf(c, ManifestJson(manifest, true)), trajectory));
  }

  // ---------------------------------------------------------------- records and their parts

  lemma {:induction false} PartsOfTransitions(ts: seq<Transition>)
    ensures TransitionsOf(TransitionRecords(ts)) == ts
    ensures BoundariesOf(TransitionRecords(ts)) == [] && MarkersOf(TransitionRecords(ts)) == []
  {
    if ts != [] {
      PartsOfTransitions(ts[..|ts| - 1]);
      assert TransitionRecords(ts)[..|ts| - 1] == TransitionRecords(ts[..|ts| - 1]);
    }
  }

  lemma PartsNext(rs: seq<Record>, r: Record)
    ensures TransitionsOf(rs + [r]) == TransitionsOf(rs) + if r.TransitionRecord? then [r.transition] else []
    ensures BoundariesOf(rs + [r]) == BoundariesOf(rs) + if r.BoundaryRecord? then [r.boundary] else []
    ensures MarkersOf(rs + [r]) == MarkersOf(rs) + if r.MarkerRecord? then [r.marker] else []
  {
    assert (rs + [r])[..|rs|] == rs;
  }

  lemma PartsOfEpisode(e: Episode)
    ensures TransitionsOf(Records(e)) == e.transitions
    ensures BoundariesOf(Records(e)) == if e.pending.Some? then [e.pending.value] else []
    ensures MarkersOf(Records(e)) == if e.marker.Some? then [e.marker.value] else []
  {
    hide TransitionsOf, BoundariesOf, MarkersOf;
    PartsOfTransitions(e.transitions);
    var base := TransitionRecords(e.transitions);
    if e.pending.Some? {
      PartsNext(base, BoundaryRecord(e.pending.value));
      if e.marker.Some? { PartsNext(base + [BoundaryRecord(e.pending.value)], MarkerRecord(e.marker.value)); }
      assert base + [BoundaryRecord(e.pending.value)] + [] == base + [BoundaryRecord(e.pending.value)];
    } else {
      assert base + [] == base;
      if e.marker.Some? { PartsNext(base, MarkerRecord(e.marker.value)); }
    }
  }

  lemma {:induction false} OnlyTransitions(rs: seq<Record>)
    requires BoundariesOf(rs) == [] && MarkersOf(rs) == []
    ensures rs == TransitionRecords(TransitionsOf(rs))
  {
    if rs != [] {
      var n := |rs| - 1;
      OnlyTransitions(rs[..n]);
      assert rs == rs[..n] + [rs[n]];
      assert rs[n].TransitionRecord?;
    }
  }

  lemma SplitLast(rs: seq<Record>)
    requires rs != []
    ensures var front, last := rs[..|rs| - 1], rs[|rs| - 1];
            && rs == front + [last]
            && TransitionsOf(rs) == TransitionsOf(front) + (if last.TransitionRecord? then [last.transition] else [])
            && BoundariesOf(rs) == BoundariesOf(front) + (if last.BoundaryRecord? then [last.boundary] else [])
            && MarkersOf(rs) == MarkersOf(front) + (if last.MarkerRecord? then [last.marker] else [])
  {
  }

  /** Records in order are the transitions, the pending boundary and the marker of one episode. */
  lemma OrderedRecords(rs: seq<Record>)
    requires OrderOk(rs)
    ensures var b, m := Head(BoundariesOf(rs)), Head(MarkersOf(rs));
            rs == TransitionRecords(TransitionsOf(rs))
                  + (if b.Some? then [BoundaryRecord(b.value)] else [])
                  + (if m.Some? then [MarkerRecord(m.value)] else [])
  {
    hide TransitionsOf, BoundariesOf, MarkersOf;
    if MarkersOf(rs) == [] {
      OnlyTransitions(rs);
    } else {
      if rs == [] { NoParts(); }
      SplitLast(rs);
      var front := rs[..|rs| - 1];
      if BoundariesOf(rs) == [] {
        OnlyTransitions(front);
      } else {
        assert rs[|rs| - 2..] == [rs[|rs| - 2], rs[|rs| - 1]];
        SplitLast(front);
        OnlyTransitions(front[..|front| - 1]);
      }
    }
  }

  lemma NoParts()
    ensures TransitionsOf([]) == [] && BoundariesOf([]) == [] && MarkersOf([]) == []
  {
  }

  // ---------------------------------------------------------------- what an export needs to be accepted

  predicate AllOk(rs: seq<Record>) { forall i | 0 <= i < |rs| :: RecordOk(rs[i]) }

  /** The bundle is within the limits of the verifier and of its reader. */
  predicate WithinLimits(c: Codec, limits: Limits, m: Manifest, vs: seq<Json>) {
    && |Pack(c, m, vs).manifest| <= limits.maxManifest && |Pack(c, m, vs).trajectory| <= limits.maxTrajectory
    && |vs| <= limits.maxRecords && Readable(c, ManifestJson(m, true)) && AllReadable(c, vs)
  }

  /** Every part carries its hash. */
  predicate EpisodeHashed(h: Digest, e: Episode) {
    && (forall i | 0 <= i < |e.transitions| :: TransitionHashed(h, e.transitions[i]))
    && (e.pending.Some? ==> PendingHashed(h, e.pending.value, e.marker))
  }

  /** What the verifier demands of an episode beyond its own validators: a transition, one environment throughout, and
      a pending boundary and a marker that belong to the episode and to its next decision. */
  predicate Coherent(e: Episode) {
    && e.transitions != []
    && (forall i | 0 <= i < |e.transitions| ::
          && e.transitions[i].boundary.observation.environment == e.environment
          && e.transitions[i].post.environment == e.environment)
    && (e.pending.Some? ==>
          e.marker.Some? && e.pending.value.index == |e.transitions| && e.pending.value.episode == e.id)
    && (e.marker.Some? ==> e.marker.value.episode == e.id)
  }

  lemma RebuiltIsEpisode(m: Manifest, e: Episode)
    requires m.episode == e.id && m.status == e.status && m.environment == e.environment && m.code == e.code
    requires e.transitions != [] && InScope(e, e.transitions[0].boundary.observation)
    ensures TransitionsOf(Records(e)) != [] && Rebuilt(m, Records(e)) == e
  {
    hide Records, TransitionsOf, BoundariesOf, MarkersOf;
    PartsOfEpisode(e);
  }

  lemma EpisodeOrder(e: Episode)
    requires Gapless(e.transitions)
    ensures OrderOk(Records(e))
       <==> (e.pending.Some? ==> e.marker.Some? && e.pending.value.index == |e.transitions|)
  {
    hide TransitionsOf, BoundariesOf, MarkersOf;
    PartsOfEpisode(e);
    var rs := Records(e);
    if e.pending.Some? && e.marker.Some? {
      assert rs[|rs| - 2..] == [BoundaryRecord(e.pending.value), MarkerRecord(e.marker.value)];
    }
  }

  lemma EpisodeReferences(m: Manifest, e: Episode)
    requires m.episode == e.id && m.environment == e.environment && EpisodeOk(e)
    ensures ReferencesOk(m, Records(e))
       <==> && (forall i | 0 <= i < |e.transitions| ::
                  && e.transitions[i].boundary.observation.environment == e.environment
                  && e.transitions[i].post.environment == e.environment)
            && (e.pending.Some? ==> e.pending.value.episode == e.id)
            && (e.marker.Some? ==> e.marker.value.episode == e.id)
  {
    hide TransitionsOf, BoundariesOf, MarkersOf;
    PartsOfEpisode(e);
    var rs, n := Records(e), |e.transitions|;
    if e.pending.Some? { assert rs[n] == BoundaryRecord(e.pending.value); }
    if e.marker.Some? { assert rs[|rs| - 1] == MarkerRecord(e.marker.value); }
    forall i | 0 <= i < n ensures EpisodeIdOf(rs[i]) == e.id { assert rs[i] == TransitionRecord(e.transitions[i]); }
  }

  /** For an episode that meets its own validators, authenticity comes down to hashes and coherence. */
  lemma AuthenticIff(h: Digest, m: Manifest, e: Episode)
    requires EpisodeOk(e) && m.episodeHash == EpisodeHash(h, e)
    requires m.episode == e.id && m.status == e.status && m.environment == e.environment && m.code == e.code
    ensures Authentic(h, m, Records(e)) <==> EpisodeHashed(h, e) && Coherent(e)
  {
    hide TransitionsOf, BoundariesOf, MarkersOf, TransitionHashed, PendingHashed, Records, OrderOk, ReferencesOk,
         EpisodeHash, Rebuilt;
    PartsOfEpisode(e);
    EpisodeOrder(e);
    EpisodeReferences(m, e);
    if e.transitions != [] { RebuiltIsEpisode(m, e); }
    assert Head(MarkersOf(Records(e))) == e.marker;
  }

  /** Which bundles of a valid episode the verifier accepts, whatever its status, the lists of implementations in the
      manifest and the defaulted members left out of the records: those of a hashed, coherent episode whose transitions
      recompute. */
  lemma PackedIff(
    c: Codec, h: Digest, r: Registry, limits: Limits, e: Episode, implementations: Implementations, vs: seq<Json>)
    requires Faithful(c) && EpisodeOk(e) && AllRecords(vs) && RecordsOf(vs) == Records(e)
    requires WithinLimits(c, limits, Describe(c, h, e, implementations, vs), vs)
    ensures var v := Verify(c, h, r, limits, true, Pack(c, Describe(c, h, e, implementations, vs), vs));
            && (!v.outcome.FAILED? <==> EpisodeHashed(h, e) && Coherent(e) && AllReproduced(r, e.transitions))
            && (!v.outcome.FAILED? ==> v.integrityValid && (v.outcome.INCOMPLETE? <==> e.status.CUT_SHORT?))
  {
    hide Verify, VerifyRecords, AllRecords, Authentic, AllReproduced, EpisodeHashed, Coherent, EpisodeOk, Records,
         RecordsOf, EpisodeHash, Readable, AllReadable;
    var m := Describe(c, h, e, implementations, vs);
    SealedReachesRecords(c, h, r, limits, Pack(c, m, vs), m, vs);
    RecordsVerifyIff(h, r, m, Records(e));
    AuthenticIff(h, m, e);
    PartsOfEpisode(e);
  }

  lemma CompleteRecords(rs: seq<Record>)
    requires AllOk(rs)
    ensures AllRecords(Complete(rs)) && RecordsOf(Complete(rs)) == rs
  {
    assert AllRecords(Complete(rs)) by {
      forall i | 0 <= i < |rs| ensures IsRecord(Complete(rs)[i]) { assert RecordOk(rs[i]); }
    }
  }

  /** Exporting a closed episode and verifying the bundle, within the limits: a hashed and coherent episode whose
      transitions recompute with the registered implementations is VERIFIED when complete and INCOMPLETE, with valid
      integrity, when cut short; every other episode fails. */
  lemma ExportVerifiesIff(c: Codec, h: Digest, r: Registry, limits: Limits, e: Episode)
    requires Faithful(c) && !e.status.OPEN? && EpisodeOk(e) && AllOk(Records(e))
    requires WithinLimits(c, limits, ManifestOf(c, h, e), Complete(Records(e)))
    ensures var v := Verify(c, h, r, limits, true, Export(c, h, e).value);
            if EpisodeHashed(h, e) && Coherent(e) && AllReproduced(r, e.transitions)
            then v.integrityValid && v.outcome == if e.status.COMPLETE? then VERIFIED else INCOMPLETE
            else v.outcome.FAILED?
  {
    hide Verify, Records, AllReproduced, EpisodeHashed, Coherent, EpisodeOk, Describe, WithinLimits, AllOk,
         ImplementationsOf;
    CompleteRecords(Records(e));
    PackedIff(c, h, r, limits, e, ImplementationsOf(e.transitions), Complete(Records(e)));
  }

  // ---------------------------------------------------------------- which accepted bundles are exports

  lemma {:induction false} JoinedLines(c: Codec, vs: seq<Json>, ws: seq<Json>)
    requires Faithful(c) && AllReadable(c, vs) && AllReadable(c, ws)
    requires Join(PrintLines(c, vs)) == Join(PrintLines(c, ws))
    ensures vs == ws
  {
    hide Join, Lines, Clean;
    SplitJoined(c, vs);
    SplitJoined(c, ws);
    var a, b := PrintLines(c, vs), PrintLines(c, ws);
    assert a == b && |vs| == |a| == |b| == |ws|;
    forall i | 0 <= i < |vs| ensures vs[i] == ws[i] {
      assert Readable(c, vs[i]) && Readable(c, ws[i]);
      assert a[i] == LineOf(c, vs[i]) && b[i] == LineOf(c, ws[i]);
    }
  }

  /** What an accepted bundle describes. */
  lemma AcceptedEpisode(h: Digest, m: Manifest, rs: seq<Record>)
    requires Authentic(h, m, rs)
    ensures TransitionsOf(rs) != []
    ensures var e := Rebuilt(m, rs);
            && Records(e) == rs && EpisodeOk(e) && EpisodeHash(h, e) == m.episodeHash
            && e.id == m.episode && e.status == m.status && e.environment == m.environment && e.code == m.code
            && e.transitions == TransitionsOf(rs)
  {
    hide EpisodeOk, EpisodeHash, PendingHashed, TransitionHashed, ReferencesOk, TransitionsOf, BoundariesOf, MarkersOf;
    OrderedRecords(rs);
  }

  /** An accepted bundle is byte for byte the export of the episode it describes exactly when the manifest is not OPEN,
      its lists are those of the transitions, and no record leaves out a defaulted member. */
  lemma AcceptedIsExportIff(
    c: Codec, h: Digest, r: Registry, limits: Limits, b: Bundle, m: Manifest, vs: seq<Json>)
    requires Faithful(c) && Sealed(c, h, limits, b, m, vs) && Authentic(h, m, RecordsOf(vs))
    requires var e := Rebuilt(m, RecordsOf(vs));
             TransitionsOf(RecordsOf(vs)) != [] && WithinLimits(c, limits, ManifestOf(c, h, e), Complete(Records(e)))
    ensures Export(c, h, Rebuilt(m, RecordsOf(vs))) == Some(b)
       <==> && !m.status.OPEN? && m.implementations == ImplementationsOf(TransitionsOf(RecordsOf(vs)))
            && forall i | 0 <= i < |vs| :: vs[i].RecordJson? && vs[i].complete
  {
    hide Authentic, Join, PrintLines, ImplementationsOf, EpisodeHash, Rebuilt, TransitionsOf, Records, RecordOk, Clean;
    var rs := RecordsOf(vs);
    AcceptedEpisode(h, m, rs);
    var e := Rebuilt(m, rs);
    var ws := Complete(rs);
    if Export(c, h, e) == Some(b) {
      assert Readable(c, ManifestJson(m, true)) && Readable(c, ManifestJson(ManifestOf(c, h, e), true));
      assert m == ManifestOf(c, h, e);
      JoinedLines(c, vs, ws);
    }
    if forall i | 0 <= i < |vs| :: vs[i].RecordJson? && vs[i].complete {
      assert vs == ws;
    }
  }
}
