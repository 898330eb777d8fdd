/** Exporting an episode as a manifest and a trajectory of canonical JSON lines, and verifying such a bundle. */
module MarlBundle {
  import opened Options
  import opened MarlRecords

  // ---------------------------------------------------------------- JSON and lines

  /** Parsed JSON. A record or manifest is `complete` when no member with a default, such as its schema version, is left
      out; any other value is known by its schema version only. */
  datatype Json =
    | RecordJson(record: Record, complete: bool)
    | ManifestJson(manifest: Manifest, complete: bool)
    | OtherJson(content: nat, version: Option<int>)

  const SCHEMA_VERSION := 1

  function Version(v: Json): Option<int> {
    match v
    case OtherJson(_, version) => version
    case _ => if v.complete then Some(SCHEMA_VERSION) else None
  }

  datatype Decoded = Value(json: Json) | Undecodable(code: Code)

  /** The canonical printer, and the strict reader with its depth and size limits. */
  datatype Codec = Codec(encode: Json -> Bytes, decode: Bytes -> Decoded)

  const LF: nat := 10
  const CR: nat := 13

  predicate Clean(b: Bytes) { forall i | 0 <= i < |b| :: b[i] != LF && b[i] != CR }

  /** Canonical JSON never contains a line end. */
  ghost predicate Faithful(c: Codec) { forall v :: Clean(c.encode(v)) }

  function LineOf(c: Codec, v: Json): Bytes { c.encode(v) + [LF] }

  /** The reader accepts a value within its limits from its own canonical line. */
  predicate Readable(c: Codec, v: Json) { c.decode(LineOf(c, v)) == Value(v) }

  function Join(lines: seq<Bytes>): Bytes { if lines == [] then [] else lines[0] + Join(lines[1..]) }

  /** The length of the first line with its end: LF, CR LF or CR, or the end of the data. */
  function FirstLine(b: Bytes): (n: nat)
    ensures n <= |b| && (b != [] ==> n > 0)
  {
    if b == [] then 0
    else if b[0] == LF then 1
    else if b[0] == CR then (if |b| > 1 && b[1] == LF then 2 else 1)
    else 1 + FirstLine(b[1..])
  }

  function Lines(b: Bytes): seq<Bytes>
    decreases |b|
  {
    if b == [] then [] else [b[..FirstLine(b)]] + Lines(b[FirstLine(b)..])
  }

  lemma {:induction false} FirstLineOfClean(p: Bytes, rest: Bytes)
    requires Clean(p)
    ensures FirstLine(p + [LF] + rest) == |p| + 1
  {
    if p != [] {
      assert (p + [LF] + rest)[1..] == p[1..] + [LF] + rest;
      FirstLineOfClean(p[1..], rest);
    }
  }

  function PrintLines(c: Codec, vs: seq<Json>): seq<Bytes> {
    seq(|vs|, i requires 0 <= i < |vs| => LineOf(c, vs[i]))
  }

  /** Splitting joined canonical lines gives back the lines. */
  lemma {:induction false} SplitJoined(c: Codec, vs: seq<Json>)
    requires Faithful(c)
    ensures Lines(Join(PrintLines(c, vs))) == PrintLines(c, vs)
  {
    var lines := PrintLines(c, vs);
    if vs != [] {
      var p := c.encode(vs[0]);
      assert Clean(p);
      assert lines[1..] == PrintLines(c, vs[1..]);
      var rest := Join(lines[1..]);
      FirstLineOfClean(p, rest);
      assert Join(lines) == p + [LF] + rest;
      assert Join(lines)[..|p| + 1] == lines[0] && Join(lines)[|p| + 1..] == rest;
      SplitJoined(c, vs[1..]);
      assert lines == [lines[0]] + lines[1..];
    }
  }

  datatype Bundle = Bundle(manifest: Bytes, trajectory: Bytes)

  /** The canonical lines of a manifest and of records. */
  function Pack(c: Codec, m: Manifest, vs: seq<Json>): Bundle {
    Bundle(LineOf(c, ManifestJson(m, true)), Join(PrintLines(c, vs)))
  }

  // ---------------------------------------------------------------- verification

  datatype Limits = Limits(maxManifest: nat, maxTrajectory: nat, maxRecords: nat)

  datatype Outcome = VERIFIED | INCOMPLETE | FAILED

  /** `line` counts from 1 and `index` is the decision index of the transition a failure names. */
  datatype Verification = Verification(
    outcome: Outcome, integrityValid: bool, checked: nat, code: Option<Code>, line: Option<nat>, index: Option<nat>)

  function Fail(code: Code): Verification { Verification(FAILED, false, 0, Some(code), None, None) }

  function FailAt(code: Code, i: nat, index: nat, authentic: bool): Verification {
    Verification(FAILED, authentic, i, Some(code), Some(i + 1), Some(index))
  }

  datatype LineValues = Values(values: seq<Json>) | BadLine(code: Code, line: nat)

  function DecodeLines(c: Codec, lines: seq<Bytes>, n: nat): LineValues
    requires n <= |lines|
  {
    if n == 0 then Values([])
    else
      var earlier := DecodeLines(c, lines, n - 1);
      if earlier.BadLine? then earlier
      else match c.decode(lines[n - 1])
        case Undecodable(code) => BadLine(code, n)
        case Value(v) => Values(earlier.values + [v])
  }

  /** The first of `n` records with another schema version, counted from 1. */
  function WrongVersion(vs: seq<Json>, n: nat): Option<nat>
    requires n <= |vs|
  {
    if n == 0 then None
    else
      var earlier := WrongVersion(vs, n - 1);
      if earlier.Some? then earlier
      else if Version(vs[n - 1]).Some? && Version(vs[n - 1]).value != SCHEMA_VERSION then Some(n) else None
  }

  predicate IsRecord(v: Json) { v.RecordJson? && RecordOk(v.record) }

  predicate AllRecords(vs: seq<Json>) { forall i | 0 <= i < |vs| :: IsRecord(vs[i]) }

  function RecordsOf(vs: seq<Json>): (r: seq<Record>)
    requires AllRecords(vs)
    ensures |r| == |vs| && forall i | 0 <= i < |vs| :: r[i] == vs[i].record
  {
    seq(|vs|, i requires 0 <= i < |vs| => assert IsRecord(vs[i]); vs[i].record)
  }

  function TransitionsOf(rs: seq<Record>): seq<Transition> {
    if rs == [] then []
    else
      var r := rs[|rs| - 1];
      TransitionsOf(rs[..|rs| - 1]) + if r.TransitionRecord? then [r.transition] else []
  }

  function BoundariesOf(rs: seq<Record>): seq<Boundary> {
    if rs == [] then []
    else
      var r := rs[|rs| - 1];
      BoundariesOf(rs[..|rs| - 1]) + if r.BoundaryRecord? then [r.boundary] else []
  }

  function MarkersOf(rs: seq<Record>): seq<Marker> {
    if rs == [] then []
    else
      var r := rs[|rs| - 1];
      MarkersOf(rs[..|rs| - 1]) + if r.MarkerRecord? then [r.marker] else []
  }

  /** Gapless transitions, then at most a pending boundary and a marker, in this order. */
  predicate OrderOk(rs: seq<Record>) {
    var ts, bs, ms := TransitionsOf(rs), BoundariesOf(rs), MarkersOf(rs);
    && Gapless(ts) && |bs| <= 1 && |ms| <= 1
    && (bs != [] ==> bs[0].index == |ts| && ms != [] && |rs| >= 2
                     && rs[|rs| - 2..] == [BoundaryRecord(bs[0]), MarkerRecord(ms[0])])
    && (ms != [] ==> rs[|rs| - 1] == MarkerRecord(ms[0]))
  }

  function EpisodeIdOf(r: Record): nat {
    match r case TransitionRecord(t) => t.episode case BoundaryRecord(b) => b.episode case MarkerRecord(m) => m.episode
  }

  predicate ReferencesOk(m: Manifest, rs: seq<Record>) {
    && (forall i | 0 <= i < |rs| :: EpisodeIdOf(rs[i]) == m.episode)
    && var ts := TransitionsOf(rs);
       forall i | 0 <= i < |ts| ::
         ts[i].boundary.observation.environment == m.environment && ts[i].post.environment == m.environment
  }

  function Head<T>(s: seq<T>): Option<T> { if s == [] then None else Some(s[0]) }

  /** The episode a bundle describes; its scope is taken from the first transition. */
  function Rebuilt(m: Manifest, rs: seq<Record>): Episode
    requires TransitionsOf(rs) != []
  {
    var ts := TransitionsOf(rs);
    Episode(m.episode, ts[0].boundary.observation.workspace, ts[0].boundary.observation.session, m.environment, m.code,
            m.status, ts, Head(BoundariesOf(rs)), Head(MarkersOf(rs)))
  }

  /** The first of `n` transitions whose hashes are wrong. */
  function FirstUnhashed(h: Digest, ts: seq<Transition>, n: nat): (r: Option<nat>)
    requires n <= |ts|
    ensures r.Some? ==> r.value < n && !TransitionHashed(h, ts[r.value])
                        && forall i | 0 <= i < r.value :: TransitionHashed(h, ts[i])
    ensures r.None? ==> forall i | 0 <= i < n :: TransitionHashed(h, ts[i])
  {
    if n == 0 then None
    else
      var earlier := FirstUnhashed(h, ts, n - 1);
      if earlier.Some? then earlier else if TransitionHashed(h, ts[n - 1]) then None else Some(n - 1)
  }

  /** The first of `n` transitions that does not replay. */
  function FirstUnreproduced(r: Registry, ts: seq<Transition>, n: nat): (f: Option<nat>)
    requires n <= |ts|
    ensures f.Some? ==> f.value < n && ReplayTransition(r, ts[f.value]).Some?
                        && forall i | 0 <= i < f.value :: ReplayTransition(r, ts[i]).None?
    ensures f.None? ==> forall i | 0 <= i < n :: ReplayTransition(r, ts[i]).None?
  {
    if n == 0 then None
    else
      var earlier := FirstUnreproduced(r, ts, n - 1);
      if earlier.Some? then earlier else if ReplayTransition(r, ts[n - 1]).None? then None else Some(n - 1)
  }

  /** The last stages: hashes, references, the episode identity, replay and completeness. */
  function VerifyRecords(h: Digest, r: Registry, m: Manifest, rs: seq<Record>): Verification {
    var ts, bs, ms := TransitionsOf(rs), BoundariesOf(rs), MarkersOf(rs);
    if !OrderOk(rs) then Fail(ORDER_VIOLATION)
    else
      var unhashed := FirstUnhashed(h, ts, |ts|);
      if unhashed.Some? then FailAt(HASH_MISMATCH, unhashed.value, ts[unhashed.value].index, false)
      else if bs != [] && !PendingHashed(h, bs[0], Head(ms)) then FailAt(HASH_MISMATCH, |ts|, bs[0].index, false)
      else if !ReferencesOk(m, rs) || ts == [] || !EpisodeOk(Rebuilt(m, rs)) then Fail(REFERENCE_MISMATCH)
      else if EpisodeHash(h, Rebuilt(m, rs)) != m.episodeHash then
        Verification(FAILED, false, |ts|, Some(HASH_MISMATCH), None, None)
      else
        var failed := FirstUnreproduced(r, ts, |ts|);
        if failed.Some? then
          FailAt(ReplayTransition(r, ts[failed.value]).value, failed.value, ts[failed.value].index, true)
        else if m.status.CUT_SHORT? then
          Verification(INCOMPLETE, true, |rs|, Some(EPISODE_INCOMPLETE), Some(|rs|), None)
        else Verification(VERIFIED, true, |rs|, None, None, None)
  }

  /** The middle stages: schema, canonical form and manifest. */
  function VerifyValues(
    c: Codec, h: Digest, r: Registry, b: Bundle, manifest: Json, lines: seq<Bytes>, vs: seq<Json>): Verification
  {
    if Version(manifest).Some? && Version(manifest).value != SCHEMA_VERSION then Fail(UNSUPPORTED_SCHEMA_VERSION)
    else if WrongVersion(vs, |vs|).Some? then
      Fail(UNSUPPORTED_SCHEMA_VERSION).(line := WrongVersion(vs, |vs|))
    else if Version(manifest).None? then Fail(UNSUPPORTED_SCHEMA_VERSION)
    else if !manifest.ManifestJson? || !AllRecords(vs) then Fail(SCHEMA_VIOLATION)
    else if b.manifest != LineOf(c, ManifestJson(manifest.manifest, true)) then Fail(NONCANONICAL_ENCODING)
    else if (exists i | 0 <= i < |lines| :: lines[i] == [] || lines[i][|lines[i]| - 1] != LF)
            || b.trajectory != Join(PrintLines(c, vs)) then Fail(NONCANONICAL_ENCODING)
    else if manifest.manifest.trajectoryHash != h(BytesPre(b.trajectory))
            || manifest.manifest.byteLength != |b.trajectory| || manifest.manifest.recordCount != |vs|
         then Fail(MANIFEST_MISMATCH)
    else VerifyRecords(h, r, manifest.manifest, RecordsOf(vs))
  }

  function Verify(c: Codec, h: Digest, r: Registry, limits: Limits, exactEntries: bool, b: Bundle): Verification {
    if !exactEntries then Fail(BUNDLE_ENTRY_SET)
    else if |b.manifest| > limits.maxManifest || |b.trajectory| > limits.maxTrajectory then
      Fail(RESOURCE_LIMIT_EXCEEDED)
    else match c.decode(b.manifest)
      case Undecodable(code) => Fail(code)
      case Value(manifest) =>
        var lines := Lines(b.trajectory);
        if |lines| > limits.maxRecords then Fail(RESOURCE_LIMIT_EXCEEDED)
        else match DecodeLines(c, lines, |lines|)
          case BadLine(code, line) => Fail(code).(line := Some(line))
          case Values(vs) => VerifyValues(c, h, r, b, manifest, lines, vs)
  }

  // ---------------------------------------------------------------- what verification decides

  /** Everything the last stages demand of the records. */
  predicate Authentic(h: Digest, m: Manifest, rs: seq<Record>) {
    var ts, bs, ms := TransitionsOf(rs), BoundariesOf(rs), MarkersOf(rs);
    && OrderOk(rs) && (forall i | 0 <= i < |ts| :: TransitionHashed(h, ts[i]))
    && (bs != [] ==> PendingHashed(h, bs[0], Head(ms)))
    && ReferencesOk(m, rs) && ts != [] && EpisodeOk(Rebuilt(m, rs)) && EpisodeHash(h, Rebuilt(m, rs)) == m.episodeHash
  }

  predicate AllReproduced(r: Registry, ts: seq<Transition>) { forall i | 0 <= i < |ts| :: Reproduced(r, ts[i]) }

  lemma ReproducedIff(r: Registry, ts: seq<Transition>)
    ensures FirstUnreproduced(r, ts, |ts|).None? <==> AllReproduced(r, ts)
  {
    hide Reproduced, ReplayTransition;
    forall i | 0 <= i < |ts| ensures ReplayTransition(r, ts[i]).None? <==> Reproduced(r, ts[i]) {
      ReplayPassesIff(r, ts[i]);
    }
    if FirstUnreproduced(r, ts, |ts|).Some? {
      assert !Reproduced(r, ts[FirstUnreproduced(r, ts, |ts|).value]);
    }
  }

  /** Records verify exactly when they are authentic and every transition recomputes; the outcome is then INCOMPLETE for
      an episode cut short and VERIFIED otherwise. */
  lemma RecordsVerifyIff(h: Digest, r: Registry, m: Manifest, rs: seq<Record>)
    ensures var v := VerifyRecords(h, r, m, rs);
            && (v.outcome.FAILED? <==> !(Authentic(h, m, rs) && AllReproduced(r, TransitionsOf(rs))))
            && (!v.outcome.FAILED? ==> v.integrityValid && (v.outcome.INCOMPLETE? <==> m.status.CUT_SHORT?))
  {
    hide OrderOk, TransitionHashed, PendingHashed, ReferencesOk, EpisodeOk, EpisodeHash, Reproduced, ReplayTransition,
         TransitionsOf, BoundariesOf, MarkersOf, Rebuilt;
    ReproducedIff(r, TransitionsOf(rs));
  }

  /** A failure in one of the two loops over the transitions names the first transition that fails there. */
  lemma FailuresNameTheFirst(h: Digest, r: Registry, m: Manifest, rs: seq<Record>)
    requires OrderOk(rs)
    ensures var v, ts := VerifyRecords(h, r, m, rs), TransitionsOf(rs);
            && (v.code == Some(HASH_MISMATCH) && !v.integrityValid && v.line.Some? && v.checked < |ts| ==>
                  && v.line == Some(v.checked + 1) && v.index == Some(v.checked)
                  && !TransitionHashed(h, ts[v.checked]) && forall i | 0 <= i < v.checked :: TransitionHashed(h, ts[i]))
            && (v.outcome.FAILED? && v.integrityValid ==>
                  && v.checked < |ts| && v.line == Some(v.checked + 1) && v.index == Some(v.checked)
                  && !Reproduced(r, ts[v.checked]) && v.code == ReplayTransition(r, ts[v.checked])
                  && forall i | 0 <= i < v.checked :: Reproduced(r, ts[i]))
  {
    hide TransitionHashed, PendingHashed, ReferencesOk, EpisodeOk, EpisodeHash, Reproduced, ReplayTransition,
         TransitionsOf, BoundariesOf, MarkersOf, Rebuilt;
    var ts := TransitionsOf(rs);
    forall i | 0 <= i < |ts| ensures ReplayTransition(r, ts[i]).None? <==> Reproduced(r, ts[i]) {
      ReplayPassesIff(r, ts[i]);
    }
  }

  // ---------------------------------------------------------------- what is accepted

  /** The bundle is the canonical lines of a manifest and of well-shaped records, which the reader accepts within its
      limits, and the manifest describes the trajectory. */
  predicate Sealed(c: Codec, h: Digest, limits: Limits, b: Bundle, m: Manifest, vs: seq<Json>) {
    && b == Pack(c, m, vs)
    && |b.manifest| <= limits.maxManifest && |b.trajectory| <= limits.maxTrajectory && |vs| <= limits.maxRecords
    && Readable(c, ManifestJson(m, true)) && AllReadable(c, vs) && AllRecords(vs)
    && m.trajectoryHash == h(BytesPre(b.trajectory)) && m.byteLength == |b.trajectory| && m.recordCount == |vs|
  }

  predicate AllReadable(c: Codec, vs: seq<Json>) { forall i | 0 <= i < |vs| :: Readable(c, vs[i]) }

  /** Decoding printed lines gives back their values. */
  lemma {:induction false} DecodePrinted(c: Codec, vs: seq<Json>, n: nat)
    requires n <= |vs| && AllReadable(c, vs)
    ensures DecodeLines(c, PrintLines(c, vs), n) == Values(vs[..n])
  {
    if n > 0 {
      DecodePrinted(c, vs, n - 1);
      assert Readable(c, vs[n - 1]);
      assert vs[..n] == vs[..n - 1] + [vs[n - 1]];
    }
  }

  lemma {:induction false} DecodedLines(c: Codec, lines: seq<Bytes>, n: nat)
    requires n <= |lines| && DecodeLines(c, lines, n).Values?
    ensures var vs := DecodeLines(c, lines, n).values;
            |vs| == n && forall i | 0 <= i < n :: c.decode(lines[i]) == Value(vs[i])
  {
    if n > 0 { DecodedLines(c, lines, n - 1); }
  }

  lemma {:induction false} RecordVersions(vs: seq<Json>, n: nat)
    requires n <= |vs| && AllRecords(vs)
    ensures WrongVersion(vs, n).None?
  {
    if n > 0 {
      assert IsRecord(vs[n - 1]);
      RecordVersions(vs, n - 1);
    }
  }

  /** Verifying a sealed bundle comes down to the last stages on its records. */
  lemma SealedReachesRecords(
    c: Codec, h: Digest, r: Registry, limits: Limits, b: Bundle, m: Manifest, vs: seq<Json>)
    requires Faithful(c) && Sealed(c, h, limits, b, m, vs)
    ensures Verify(c, h, r, limits, true, b) == VerifyRecords(h, r, m, RecordsOf(vs))
  {
    hide VerifyRecords, RecordOk, Lines, Join, Clean;
    SplitJoined(c, vs);
    DecodePrinted(c, vs, |vs|);
    assert vs[..|vs|] == vs;
    RecordVersions(vs, |vs|);
  }

  /** A bundle that does not fail is sealed. */
  lemma AcceptedIsSealed(c: Codec, h: Digest, r: Registry, limits: Limits, b: Bundle)
    returns (m: Manifest, vs: seq<Json>)
    requires Faithful(c) && !Verify(c, h, r, limits, true, b).outcome.FAILED?
    ensures Sealed(c, h, limits, b, m, vs)
  {
    hide VerifyRecords, AllRecords, RecordsOf, WrongVersion, Lines, Join, Clean;
    m := c.decode(b.manifest).json.manifest;
    var lines := Lines(b.trajectory);
    vs := DecodeLines(c, lines, |lines|).values;
    DecodedLines(c, lines, |lines|);
    SplitJoined(c, vs);
    assert AllReadable(c, vs);
  }

  /** A bundle is accepted, as VERIFIED or INCOMPLETE, exactly when it is the canonical lines of a manifest and of
      records in order, under gapless decision indices from 0, that carry their hashes and recompute. */
  lemma AcceptedIff(c: Codec, h: Digest, r: Registry, limits: Limits, b: Bundle)
    requires Faithful(c)
    ensures !Verify(c, h, r, limits, true, b).outcome.FAILED?
       <==> exists m, vs ::
              && Sealed(c, h, limits, b, m, vs) && Authentic(h, m, RecordsOf(vs))
              && Gapless(TransitionsOf(RecordsOf(vs))) && AllReproduced(r, TransitionsOf(RecordsOf(vs)))
  {
    hide Sealed, Authentic, AllReproduced, Verify, VerifyRecords, Gapless, TransitionsOf, RecordsOf;
    if !Verify(c, h, r, limits, true, b).outcome.FAILED? {
      var m, vs := AcceptedIsSealed(c, h, r, limits, b);
      SealedRecords(c, h, limits, b, m, vs);
      SealedReachesRecords(c, h, r, limits, b, m, vs);
      RecordsVerifyIff(h, r, m, RecordsOf(vs));
      AuthenticIsGapless(h, m, RecordsOf(vs));
    }
    forall m, vs | Sealed(c, h, limits, b, m, vs) ensures AllRecords(vs) { SealedRecords(c, h, limits, b, m, vs); }
    if m, vs :| Sealed(c, h, limits, b, m, vs) && Authentic(h, m, RecordsOf(vs))
                && AllReproduced(r, TransitionsOf(RecordsOf(vs))) {
      SealedReachesRecords(c, h, r, limits, b, m, vs);
      RecordsVerifyIff(h, r, m, RecordsOf(vs));
    }
  }

  lemma SealedRecords(c: Codec, h: Digest, limits: Limits, b: Bundle, m: Manifest, vs: seq<Json>)
    requires Sealed(c, h, limits, b, m, vs)
    ensures AllRecords(vs)
  {
  }

  lemma AuthenticIsGapless(h: Digest, m: Manifest, rs: seq<Record>)
    ensures Authentic(h, m, rs) ==> Gapless(TransitionsOf(rs))
  {
  }

  // ---------------------------------------------------------------- the verifier

  method VerifyTransitions(h: Digest, r: Registry, m: Manifest, rs: seq<Record>) returns (v: Verification)
    ensures v == VerifyRecords(h, r, m, rs)
  {
    hide TransitionHashed, PendingHashed, EpisodeOk, EpisodeHash, ReferencesOk, OrderOk, ReplayTransition,
         TransitionsOf, BoundariesOf, MarkersOf;
    var ts, bs, ms := TransitionsOf(rs), BoundariesOf(rs), MarkersOf(rs);
    if !OrderOk(rs) { return Fail(ORDER_VIOLATION); }
    var i := 0;
    while i < |ts|
      invariant 0 <= i <= |ts| && FirstUnhashed(h, ts, i).None?
    {
      if !TransitionHashed(h, ts[i]) { return FailAt(HASH_MISMATCH, i, ts[i].index, false); }
      i := i + 1;
    }
    if bs != [] && !PendingHashed(h, bs[0], Head(ms)) { return FailAt(HASH_MISMATCH, |ts|, bs[0].index, false); }
    if !ReferencesOk(m, rs) { return Fail(REFERENCE_MISMATCH); }
    if ts == [] || !EpisodeOk(Rebuilt(m, rs)) { return Fail(REFERENCE_MISMATCH); }
    if EpisodeHash(h, Rebuilt(m, rs)) != m.episodeHash {
      return Verification(FAILED, false, |ts|, Some(HASH_MISMATCH), None, None);
    }
    i := 0;
    while i < |ts|
      invariant 0 <= i <= |ts| && FirstUnreproduced(r, ts, i).None?
    {
      var failure := ReplayTransition(r, ts[i]);
      if failure.Some? { return FailAt(failure.value, i, ts[i].index, true); }
      i := i + 1;
    }
    if m.status.CUT_SHORT? { return Verification(INCOMPLETE, true, |rs|, Some(EPISODE_INCOMPLETE), Some(|rs|), None); }
    return Verification(VERIFIED, true, |rs|, None, None, None);
  }

  lemma {:induction false} BadLineStays(c: Codec, lines: seq<Bytes>, n: nat)
    requires n <= |lines| && DecodeLines(c, lines, n).BadLine?
    ensures DecodeLines(c, lines, |lines|) == DecodeLines(c, lines, n)
    decreases |lines| - n
  {
    if n < |lines| { BadLineStays(c, lines, n + 1); }
  }

  lemma {:induction false} WrongVersionStays(vs: seq<Json>, n: nat)
    requires n <= |vs| && WrongVersion(vs, n).Some?
    ensures WrongVersion(vs, |vs|) == WrongVersion(vs, n)
    decreases |vs| - n
  {
    if n < |vs| { WrongVersionStays(vs, n + 1); }
  }

  method VerifyBundle(c: Codec, h: Digest, r: Registry, limits: Limits, exactEntries: bool, b: Bundle)
    returns (v: Verification)
    ensures v == Verify(c, h, r, limits, exactEntries, b)
  {
    hide VerifyRecords, Lines, Join, RecordOk, PrintLines;
    if !exactEntries { return Fail(BUNDLE_ENTRY_SET); }
    if |b.manifest| > limits.maxManifest || |b.trajectory| > limits.maxTrajectory {
      return Fail(RESOURCE_LIMIT_EXCEEDED);
    }
    var manifest := c.decode(b.manifest);
    if manifest.Undecodable? { return Fail(manifest.code); }
    var lines := Lines(b.trajectory);
    if |lines| > limits.maxRecords { return Fail(RESOURCE_LIMIT_EXCEEDED); }
    var values := [];
    var n := 0;
    while n < |lines|
      invariant 0 <= n <= |lines| && DecodeLines(c, lines, n) == Values(values)
    {
      var decoded := c.decode(lines[n]);
      if decoded.Undecodable? {
        BadLineStays(c, lines, n + 1);
        return Fail(decoded.code).(line := Some(n + 1));
      }
      values := values + [decoded.json];
      n := n + 1;
    }
    var version := Version(manifest.json);
    if version.Some? && version.value != SCHEMA_VERSION { return Fail(UNSUPPORTED_SCHEMA_VERSION); }
    n := 0;
    while n < |values|
      invariant 0 <= n <= |values| && WrongVersion(values, n).None?
    {
      if Version(values[n]).Some? && Version(values[n]).value != SCHEMA_VERSION {
        WrongVersionStays(values, n + 1);
        return Fail(UNSUPPORTED_SCHEMA_VERSION).(line := Some(n + 1));
      }
      n := n + 1;
    }
    if version.None? { return Fail(UNSUPPORTED_SCHEMA_VERSION); }
    if !manifest.json.ManifestJson? { return Fail(SCHEMA_VIOLATION); }
    n := 0;
    while n < |values|
      invariant 0 <= n <= |values| && forall i | 0 <= i < n :: IsRecord(values[i])
    {
      if !IsRecord(values[n]) { return Fail(SCHEMA_VIOLATION); }
      n := n + 1;
    }
    var m := manifest.json.manifest;
    if b.manifest != LineOf(c, ManifestJson(m, true)) { return Fail(NONCANONICAL_ENCODING); }
    if (exists i | 0 <= i < |lines| :: lines[i] == [] || lines[i][|lines[i]| - 1] != LF)
       || b.trajectory != Join(PrintLines(c, values)) {
      return Fail(NONCANONICAL_ENCODING);
    }
    if m.trajectoryHash != h(BytesPre(b.trajectory)) || m.byteLength != |b.trajectory| || m.recordCount != |values| {
      return Fail(MANIFEST_MISMATCH);
    }
    v := VerifyTransitions(h, r, m, RecordsOf(values));
  }
}
