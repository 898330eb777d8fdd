/** Hybrid retrieval: fusing two ranked arms, checking what a reranker returns, and one audit row on every path. */
module Retrieval {
  import opened Options
  import opened Sorting

  /** Chunk identities are UUIDs, whose text order is the order of the integers they are; `provenance` stands for all
      other columns of a chunk. */
  datatype Candidate = Candidate(chunk: nat, provenance: nat, score: real)

  datatype Chunk = Chunk(
    id: nat, provenance: nat, score: real, lexicalScore: Option<real>, vectorScore: Option<real>, fusedScore: real,
    indexVersion: nat, rerankScore: Option<real>)

  // ---------------------------------------------------------------- fusion

  const RRF_K0 := 60.0

  function Share(index: nat): real { 1.0 / (RRF_K0 + (index + 1) as real) }

  /** The shares of a chunk for its occurrences among the first `n` of an arm. */
  function ArmScore(arm: seq<Candidate>, id: nat, n: nat): real
    requires n <= |arm|
  {
    if n == 0 then 0.0 else ArmScore(arm, id, n - 1) + if arm[n - 1].chunk == id then Share(n - 1) else 0.0
  }

  function FusedScore(lexical: seq<Candidate>, vector: seq<Candidate>, id: nat): real {
    ArmScore(lexical, id, |lexical|) + ArmScore(vector, id, |vector|)
  }

  /** Chunk identities in the order of their first occurrence. */
  function FirstSeen(cs: seq<Candidate>): seq<nat> {
    if cs == [] then []
    else
      var ids := FirstSeen(cs[..|cs| - 1]);
      if cs[|cs| - 1].chunk in ids then ids else ids + [cs[|cs| - 1].chunk]
  }

  function FirstOf(cs: seq<Candidate>, id: nat): Option<Candidate> {
    if cs == [] then None else if cs[0].chunk == id then Some(cs[0]) else FirstOf(cs[1..], id)
  }

  function LastScore(arm: seq<Candidate>, id: nat): Option<real> {
    if arm == [] then None
    else if arm[|arm| - 1].chunk == id then Some(arm[|arm| - 1].score)
    else LastScore(arm[..|arm| - 1], id)
  }

  /** Falling fused score, then rising identity. */
  function ByScore(): ((real, nat), (real, nat)) -> bool {
    (x: (real, nat), y: (real, nat)) => x.0 > y.0 || (x.0 == y.0 && x.1 <= y.1)
  }

  function Entries(lexical: seq<Candidate>, vector: seq<Candidate>): (r: seq<(real, nat)>)
    ensures var ids := FirstSeen(lexical + vector);
            |r| == |ids| && forall i | 0 <= i < |ids| :: r[i] == (FusedScore(lexical, vector, ids[i]), ids[i])
  {
    var ids := FirstSeen(lexical + vector);
    seq(|ids|, i requires 0 <= i < |ids| => (FusedScore(lexical, vector, ids[i]), ids[i]))
  }

  function Ordered(lexical: seq<Candidate>, vector: seq<Candidate>): seq<(real, nat)> {
    Sort(ByScore(), Entries(lexical, vector))
  }

  function ChunkOf(lexical: seq<Candidate>, vector: seq<Candidate>, indexVersion: nat, entry: (real, nat)): Chunk {
    var first := FirstOf(lexical + vector, entry.1);
    Chunk(entry.1, if first.Some? then first.value.provenance else 0, entry.0, LastScore(lexical, entry.1),
          LastScore(vector, entry.1), entry.0, indexVersion, None)
  }

  function Fusion(lexical: seq<Candidate>, vector: seq<Candidate>, indexVersion: nat): (r: seq<Chunk>)
    ensures var ordered := Ordered(lexical, vector);
            |r| == |ordered| && forall i | 0 <= i < |r| :: r[i] == ChunkOf(lexical, vector, indexVersion, ordered[i])
  {
    var ordered := Ordered(lexical, vector);
    seq(|ordered|, i requires 0 <= i < |ordered| => ChunkOf(lexical, vector, indexVersion, ordered[i]))
  }

  predicate Holds(arm: seq<Candidate>, id: nat) { exists i | 0 <= i < |arm| :: arm[i].chunk == id }

  lemma {:induction false} FirstSeenIds(cs: seq<Candidate>)
    ensures forall id: nat :: id in FirstSeen(cs) <==> Holds(cs, id)
    ensures forall i, j | 0 <= i < j < |FirstSeen(cs)| :: FirstSeen(cs)[i] != FirstSeen(cs)[j]
  {
    if cs != [] {
      var n := |cs| - 1;
      FirstSeenIds(cs[..n]);
      forall id: nat ensures Holds(cs, id) <==> Holds(cs[..n], id) || cs[n].chunk == id {
        assert cs == cs[..n] + [cs[n]];
        HoldsConcat(cs[..n], [cs[n]], id);
        assert [cs[n]][0] == cs[n];
      }
    }
  }

  lemma HoldsConcat(a: seq<Candidate>, b: seq<Candidate>, id: nat)
    ensures Holds(a + b, id) <==> Holds(a, id) || Holds(b, id)
  {
    if Holds(a, id) {
      var i :| 0 <= i < |a| && a[i].chunk == id;
      assert (a + b)[i].chunk == id;
    }
    if Holds(b, id) {
      var i :| 0 <= i < |b| && b[i].chunk == id;
      assert (a + b)[|a| + i].chunk == id;
    }
  }

  lemma ByScoreIsPreorder()
    ensures TotalPreorder(ByScore())
  {
  }

  /** The sorted entries: each chunk of either arm once, with its score. */
  lemma OrderedEntries(lexical: seq<Candidate>, vector: seq<Candidate>)
    ensures var r := Ordered(lexical, vector);
            && Sorted(ByScore(), r)
            && (forall i | 0 <= i < |r| :: r[i].0 == FusedScore(lexical, vector, r[i].1))
            && (forall i | 0 <= i < |r| :: Holds(lexical, r[i].1) || Holds(vector, r[i].1))
            && (forall id: nat | Holds(lexical, id) || Holds(vector, id) ::
                  (FusedScore(lexical, vector, id), id) in r)
            && (forall i, j | 0 <= i < j < |r| :: r[i].1 != r[j].1)
  {
    hide FusedScore, FirstSeen, Sort, Holds;
    var es := Entries(lexical, vector);
    var r := Ordered(lexical, vector);
    FirstSeenIds(lexical + vector);
    ByScoreIsPreorder();
    OrderedIsSort(lexical, vector);
    SortSorted(ByScore(), es);
    SortPermutes(ByScore(), es);
    MembersOfSort(ByScore(), es);
    RearrangedKeys((e: (real, nat)) => e.1, es, r);
    forall i | 0 <= i < |r|
      ensures r[i].0 == FusedScore(lexical, vector, r[i].1) && (Holds(lexical, r[i].1) || Holds(vector, r[i].1))
    {
      assert r[i] in es;
      var k :| 0 <= k < |es| && es[k] == r[i];
      assert FirstSeen(lexical + vector)[k] == r[i].1;
      HoldsConcat(lexical, vector, r[i].1);
    }
    forall id: nat | Holds(lexical, id) || Holds(vector, id) ensures (FusedScore(lexical, vector, id), id) in r {
      HoldsConcat(lexical, vector, id);
      var k :| 0 <= k < |FirstSeen(lexical + vector)| && FirstSeen(lexical + vector)[k] == id;
      assert es[k] == (FusedScore(lexical, vector, id), id);
    }
  }

  lemma OrderedIsSort(lexical: seq<Candidate>, vector: seq<Candidate>)
    ensures Ordered(lexical, vector) == Sort(ByScore(), Entries(lexical, vector))
  {
  }

  /** Fusion lists each chunk of either arm exactly once, scores it by the sum of 1/(60 + rank) over its occurrences,
      and sorts by falling score and then identity. */
  lemma FusionIsExact(lexical: seq<Candidate>, vector: seq<Candidate>, indexVersion: nat)
    ensures var r := Fusion(lexical, vector, indexVersion);
            && (forall id: nat ::
                  (exists i | 0 <= i < |r| :: r[i].id == id) <==> Holds(lexical, id) || Holds(vector, id))
            && (forall i, j | 0 <= i < j < |r| :: r[i].id != r[j].id)
            && (forall i | 0 <= i < |r| ::
                  r[i].fusedScore == FusedScore(lexical, vector, r[i].id) == r[i].score && r[i].rerankScore.None?)
            && (forall i, j | 0 <= i < j < |r| ::
                  r[i].fusedScore > r[j].fusedScore || (r[i].fusedScore == r[j].fusedScore && r[i].id < r[j].id))
  {
    hide FusedScore, Ordered, Holds;
    OrderedEntries(lexical, vector);
    var r, ordered := Fusion(lexical, vector, indexVersion), Ordered(lexical, vector);
    forall id: nat | Holds(lexical, id) || Holds(vector, id) ensures exists i | 0 <= i < |r| :: r[i].id == id {
      var i :| 0 <= i < |ordered| && ordered[i] == (FusedScore(lexical, vector, id), id);
      assert r[i].id == id;
    }
    forall i, j | 0 <= i < j < |r|
      ensures r[i].fusedScore > r[j].fusedScore || (r[i].fusedScore == r[j].fusedScore && r[i].id < r[j].id)
    {
      assert ByScore()(ordered[i], ordered[j]);
    }
  }

  /** Swapping the arms changes neither the chunks listed, nor their fused scores, nor their order. */
  lemma SwapArms(lexical: seq<Candidate>, vector: seq<Candidate>, indexVersion: nat)
    ensures var r, t := Fusion(lexical, vector, indexVersion), Fusion(vector, lexical, indexVersion);
            |r| == |t| && forall i | 0 <= i < |r| :: r[i].id == t[i].id && r[i].fusedScore == t[i].fusedScore
  {
    hide FusedScore, Ordered, Holds, FirstSeen;
    OrderedEntries(lexical, vector);
    OrderedEntries(vector, lexical);
    SwapScores(lexical, vector);
    var a, b := Ordered(lexical, vector), Ordered(vector, lexical);
    forall x ensures x in a <==> x in b {
      if x in a {
        var i :| 0 <= i < |a| && a[i] == x;
        assert x == (FusedScore(vector, lexical, x.1), x.1);
      }
      if x in b {
        var i :| 0 <= i < |b| && b[i] == x;
        assert x == (FusedScore(lexical, vector, x.1), x.1);
      }
    }
    SameElements(a, b);
    SortedUnique(ByScore(), a, b);
  }

  lemma SwapScores(lexical: seq<Candidate>, vector: seq<Candidate>)
    ensures forall id :: FusedScore(lexical, vector, id) == FusedScore(vector, lexical, id)
  {
  }

  // ---------------------------------------------------------------- dominance

  predicate DuplicateFree(arm: seq<Candidate>) { forall i, j | 0 <= i < j < |arm| :: arm[i].chunk != arm[j].chunk }

  lemma ShareFalls(i: nat, j: nat)
    requires i < j
    ensures Share(i) > Share(j) > 0.0
  {
    var a, b := RRF_K0 + (i + 1) as real, RRF_K0 + (j + 1) as real;
    assert Share(i) * a == 1.0 && Share(j) * b == 1.0;
    Reciprocal(Share(i), a, Share(j), b);
  }

  lemma Reciprocal(x: real, a: real, y: real, b: real)
    requires 0.0 < a < b && x * a == 1.0 && y * b == 1.0
    ensures x > y > 0.0
  {
    Positive(x, a);
    Positive(y, b);
    assert y * a < y * b;
    assert (x - y) * a > 0.0;
    Positive(x - y, a);
  }

  lemma Positive(v: real, m: real)
    requires m > 0.0 && v * m > 0.0
    ensures v > 0.0
  {
  }

  /** Where an arm without duplicates holds a chunk, it scores the share of that place. */
  lemma {:induction false} ArmScoreAt(arm: seq<Candidate>, id: nat, i: nat, n: nat)
    requires DuplicateFree(arm) && i < |arm| && arm[i].chunk == id && n <= |arm|
    ensures ArmScore(arm, id, n) == if i < n then Share(i) else 0.0
  {
    if n > 0 { ArmScoreAt(arm, id, i, n - 1); }
  }

  lemma {:induction false} ArmScoreAbsent(arm: seq<Candidate>, id: nat, n: nat)
    requires !Holds(arm, id) && n <= |arm|
    ensures ArmScore(arm, id, n) == 0.0
  {
    if n > 0 {
      ArmScoreAbsent(arm, id, n - 1);
      assert arm[n - 1].chunk != id;
    }
  }

  /** `a` stands at least as high as `b` in an arm, which holds at most if it holds `b` too. */
  predicate AtLeastAsHigh(arm: seq<Candidate>, a: nat, b: nat) {
    Holds(arm, b) ==> exists i, j | 0 <= i <= j < |arm| :: arm[i].chunk == a && arm[j].chunk == b
  }

  predicate Higher(arm: seq<Candidate>, a: nat, b: nat) {
    Holds(arm, a) && (!Holds(arm, b) || exists i, j | 0 <= i < j < |arm| :: arm[i].chunk == a && arm[j].chunk == b)
  }

  lemma HigherScoresMore(arm: seq<Candidate>, a: nat, b: nat)
    requires DuplicateFree(arm) && AtLeastAsHigh(arm, a, b)
    ensures ArmScore(arm, a, |arm|) >= ArmScore(arm, b, |arm|)
    ensures Higher(arm, a, b) ==> ArmScore(arm, a, |arm|) > ArmScore(arm, b, |arm|)
  {
    hide Share;
    if !Holds(arm, b) {
      ArmScoreAbsent(arm, b, |arm|);
      if Holds(arm, a) {
        var i :| 0 <= i < |arm| && arm[i].chunk == a;
        ArmScoreAt(arm, a, i, |arm|);
        ShareFalls(i, i + 1);
      } else {
        ArmScoreAbsent(arm, a, |arm|);
      }
    } else {
      var i, j :| 0 <= i <= j < |arm| && arm[i].chunk == a && arm[j].chunk == b;
      ArmScoreAt(arm, a, i, |arm|);
      ArmScoreAt(arm, b, j, |arm|);
      if i < j { ShareFalls(i, j); }
    }
  }

  /** With arms free of duplicates, a chunk that stands at least as high in every arm holding the other, and higher in
      one, comes first. */
  lemma DominantComesFirst(lexical: seq<Candidate>, vector: seq<Candidate>, indexVersion: nat, a: nat, b: nat)
    requires DuplicateFree(lexical) && DuplicateFree(vector)
    requires AtLeastAsHigh(lexical, a, b) && AtLeastAsHigh(vector, a, b)
    requires Higher(lexical, a, b) || Higher(vector, a, b)
    requires Holds(lexical, b) || Holds(vector, b)
    ensures var r := Fusion(lexical, vector, indexVersion);
            exists i, j | 0 <= i < j < |r| :: r[i].id == a && r[j].id == b
  {
    hide Holds, AtLeastAsHigh, Higher, Fusion;
    HigherScoresMore(lexical, a, b);
    HigherScoresMore(vector, a, b);
    HigherHolds(lexical, a, b);
    HigherHolds(vector, a, b);
    FusionIsExact(lexical, vector, indexVersion);
    var r := Fusion(lexical, vector, indexVersion);
    var i :| 0 <= i < |r| && r[i].id == a;
    var j :| 0 <= j < |r| && r[j].id == b;
    assert r[i].fusedScore > r[j].fusedScore;
    assert i < j;
  }

  lemma HigherHolds(arm: seq<Candidate>, a: nat, b: nat)
    ensures Higher(arm, a, b) ==> Holds(arm, a)
  {
  }

  // ---------------------------------------------------------------- the fusion loops

  /** The four dictionaries of the fusion, filled from one arm after the other. */
  datatype Tables = Tables(keys: seq<nat>, first: map<nat, Candidate>, fused: map<nat, real>)

  ghost predicate Filled(t: Tables, lexical: seq<Candidate>, vector: seq<Candidate>) {
    && t.keys == FirstSeen(lexical + vector)
    && (forall id :: id in t.first <==> id in t.keys) && (forall id :: id in t.fused <==> id in t.keys)
    && (forall id | id in t.first :: FirstOf(lexical + vector, id) == Some(t.first[id]))
    && (forall id | id in t.fused :: t.fused[id] == FusedScore(lexical, vector, id))
  }

  ghost predicate Scored(scores: map<nat, real>, arm: seq<Candidate>) {
    forall id :: (if id in scores then Some(scores[id]) else None) == LastScore(arm, id)
  }

  lemma {:induction false} FirstOfAppend(cs: seq<Candidate>, c: Candidate, id: nat)
    ensures FirstOf(cs + [c], id)
         == if FirstOf(cs, id).Some? then FirstOf(cs, id) else if c.chunk == id then Some(c) else None
  {
    if cs != [] {
      assert (cs + [c])[1..] == cs[1..] + [c];
      FirstOfAppend(cs[1..], c, id);
    }
  }

  lemma {:induction false} FirstOfHeld(cs: seq<Candidate>, id: nat)
    ensures FirstOf(cs, id).Some? <==> Holds(cs, id)
  {
    if cs != [] {
      FirstOfHeld(cs[1..], id);
      assert cs == [cs[0]] + cs[1..];
      HoldsConcat([cs[0]], cs[1..], id);
      assert [cs[0]][0] == cs[0];
    }
  }

  lemma {:induction false} ArmScorePrefix(arm: seq<Candidate>, id: nat, n: nat, m: nat)
    requires m <= n <= |arm|
    ensures ArmScore(arm[..n], id, m) == ArmScore(arm, id, m)
  {
    if m > 0 { ArmScorePrefix(arm, id, n, m - 1); }
  }

  function AddTo(t: Tables, c: Candidate, share: real): Tables {
    Tables(if c.chunk in t.first then t.keys else t.keys + [c.chunk],
           if c.chunk in t.first then t.first else t.first[c.chunk := c],
           t.fused[c.chunk := (if c.chunk in t.fused then t.fused[c.chunk] else 0.0) + share])
  }

  lemma UnseenScoresNothing(cs: seq<Candidate>, lexical: seq<Candidate>, vector: seq<Candidate>, id: nat)
    requires cs == lexical + vector && id !in FirstSeen(cs)
    ensures FusedScore(lexical, vector, id) == 0.0 && FirstOf(cs, id).None?
  {
    FirstSeenIds(cs);
    FirstOfHeld(cs, id);
    HoldsConcat(lexical, vector, id);
    ArmScoreAbsent(lexical, id, |lexical|);
    ArmScoreAbsent(vector, id, |vector|);
  }

  /** Adding one candidate of the second arm. */
  lemma AddFilled(t: Tables, lexical: seq<Candidate>, vector: seq<Candidate>, c: Candidate)
    requires Filled(t, lexical, vector)
    ensures Filled(AddTo(t, c, Share(|vector|)), lexical, vector + [c])
  {
    hide FusedScore, Share;
    var cs := lexical + vector;
    if c.chunk !in t.keys { UnseenScoresNothing(cs, lexical, vector, c.chunk); }
    assert lexical + (vector + [c]) == cs + [c];
    assert (cs + [c])[..|cs|] == cs;
    forall id ensures FirstOf(cs + [c], id) == if FirstOf(cs, id).Some? then FirstOf(cs, id)
                                               else if c.chunk == id then Some(c) else None
    {
      FirstOfAppend(cs, c, id);
    }
    AddedScores(lexical, vector, c);
  }

  /** A single arm may stand in either place. */
  lemma OneArm(t: Tables, arm: seq<Candidate>)
    ensures Filled(t, arm, []) <==> Filled(t, [], arm)
  {
    hide FusedScore;
    assert arm + [] == arm && [] + arm == arm;
    SwapScores(arm, []);
  }

  lemma AddedScores(lexical: seq<Candidate>, vector: seq<Candidate>, c: Candidate)
    ensures forall id :: FusedScore(lexical, vector + [c], id)
                      == FusedScore(lexical, vector, id) + if c.chunk == id then Share(|vector|) else 0.0
  {
    forall id ensures ArmScore(vector + [c], id, |vector|) == ArmScore(vector, id, |vector|) {
      assert (vector + [c])[..|vector|] == vector;
      ArmScorePrefix(vector + [c], id, |vector|, |vector|);
    }
  }

  lemma ScoredNext(scores: map<nat, real>, arm: seq<Candidate>, c: Candidate)
    requires Scored(scores, arm)
    ensures Scored(scores[c.chunk := c.score], arm + [c])
  {
    assert (arm + [c])[..|arm|] == arm;
  }

  method FillArm(start: Tables, ghost before: seq<Candidate>, arm: seq<Candidate>)
    returns (t: Tables, scores: map<nat, real>)
    requires Filled(start, before, [])
    ensures Filled(t, before, arm) && Scored(scores, arm)
  {
    hide Filled, Scored, Share;
    t, scores := start, map[];
    assert Filled(t, before, arm[..0]);
    assert Scored(scores, arm[..0]) by { NothingScored(arm); }
    var i := 0;
    while i < |arm|
      invariant 0 <= i <= |arm| && Filled(t, before, arm[..i]) && Scored(scores, arm[..i])
    {
      assert arm[..i + 1] == arm[..i] + [arm[i]];
      AddFilled(t, before, arm[..i], arm[i]);
      ScoredNext(scores, arm[..i], arm[i]);
      scores := scores[arm[i].chunk := arm[i].score];
      t := AddTo(t, arm[i], Share(i));
      i := i + 1;
    }
    assert arm[..i] == arm;
  }

  lemma NothingScored(arm: seq<Candidate>)
    ensures Scored(map[], arm[..0])
  {
  }

  method ReciprocalRankFusion(lexical: seq<Candidate>, vector: seq<Candidate>, indexVersion: nat)
    returns (chunks: seq<Chunk>)
    ensures chunks == Fusion(lexical, vector, indexVersion)
  {
    hide FusedScore, LastScore, FirstOf, FirstSeen, Sort;
    var empty := Tables([], map[], map[]);
    NothingFilled(empty);
    var t1, lexicalScores := FillArm(empty, [], lexical);
    OneArm(t1, lexical);
    var t2, vectorScores := FillArm(t1, lexical, vector);
    var entries := seq(|t2.keys|, i requires 0 <= i < |t2.keys| && t2.keys[i] in t2.fused =>
                       (t2.fused[t2.keys[i]], t2.keys[i]));
    assert entries == Entries(lexical, vector);
    var ordered := Sort(ByScore(), entries);
    OrderedIsSort(lexical, vector);
    MembersOfSort(ByScore(), entries);
    chunks := [];
    var n := 0;
    while n < |ordered|
      invariant 0 <= n <= |ordered| && |chunks| == n
      invariant forall i | 0 <= i < n :: chunks[i] == ChunkOf(lexical, vector, indexVersion, ordered[i])
    {
      var (score, key) := ordered[n];
      assert ordered[n] in entries;
      chunks := chunks + [Chunk(
        key, t2.first[key].provenance, score, if key in lexicalScores then Some(lexicalScores[key]) else None,
        if key in vectorScores then Some(vectorScores[key]) else None, score, indexVersion, None)];
      n := n + 1;
    }
  }

  lemma NothingFilled(t: Tables)
    requires t == Tables([], map[], map[])
    ensures Filled(t, [], [])
  {
  }

  // ---------------------------------------------------------------- what a reranker may return

  predicate SameButRerankScore(a: Chunk, b: Chunk) { a.(rerankScore := None) == b.(rerankScore := None) }

  function Least(a: nat, b: nat): nat { if a <= b then a else b }

  predicate FromCandidates(c: Chunk, candidates: seq<Chunk>) {
    exists j | 0 <= j < |candidates| :: SameButRerankScore(c, candidates[j])
  }

  /** As many chunks as there can be, no chunk twice, and each a candidate changed at most in its rerank score. */
  predicate ValidReranking(reranked: seq<Chunk>, candidates: seq<Chunk>, k: nat) {
    && |reranked| == Least(k, |candidates|)
    && (forall i, j | 0 <= i < j < |reranked| :: reranked[i].id != reranked[j].id)
    && (forall i | 0 <= i < |reranked| :: FromCandidates(reranked[i], candidates))
  }

  method ValidateRerankerOutput(reranked: seq<Chunk>, candidates: seq<Chunk>, k: nat) returns (ok: bool)
    requires forall i, j | 0 <= i < j < |candidates| :: candidates[i].id != candidates[j].id
    ensures ok <==> ValidReranking(reranked, candidates, k)
  {
    if |reranked| != Least(k, |candidates|) { return false; }
    var originals: map<nat, Chunk> := map[];
    var n := 0;
    while n < |candidates|
      invariant 0 <= n <= |candidates|
      invariant forall id :: id in originals ==>
                  exists j | 0 <= j < n :: candidates[j].id == id && originals[id] == candidates[j]
      invariant forall j | 0 <= j < n :: candidates[j].id in originals && originals[candidates[j].id] == candidates[j]
    {
      originals := originals[candidates[n].id := candidates[n]];
      n := n + 1;
    }
    var seen: set<nat> := {};
    var i := 0;
    while i < |reranked|
      invariant 0 <= i <= |reranked|
      invariant forall id :: id in seen <==> exists j | 0 <= j < i :: reranked[j].id == id
      invariant forall k, j | 0 <= k < j < i :: reranked[k].id != reranked[j].id
      invariant forall k | 0 <= k < i :: FromCandidates(reranked[k], candidates)
    {
      var c := reranked[i];
      if c.id in seen { return false; }
      if c.id !in originals || !SameButRerankScore(c, originals[c.id]) {
        assert !FromCandidates(c, candidates);
        return false;
      }
      seen := seen + {c.id};
      i := i + 1;
    }
    return true;
  }

  // ---------------------------------------------------------------- retrieval

  /** What a port answers; the three errors are the kinds a port may raise. */
  datatype Port<+T> = Answer(value: T) | Transient | IndexMismatch | Permanent

  datatype Degradation = NONE | LEXICAL_ONLY | INDEX_MISMATCH | RERANKER_FAILED
  datatype Outcome = ALLOWED | DENIED | RAG_FAILED

  datatype Warning = NO_AUTHORIZATION | NO_LEXICAL | NO_VECTOR | LEXICAL_RETAINED | MISMATCH_RETAINED
                   | FUSED_ORDER_RETAINED | NO_CANDIDATES

  datatype Request = Request(namespaces: seq<nat>, finalK: nat, indexVersion: nat, expectedMatch: bool)

  datatype Result = Result(
    searched: seq<nat>, lexicalCount: nat, vectorCount: nat, degradation: Degradation, warnings: seq<Warning>,
    chunks: seq<Chunk>)

  /** The audit row; identity and time columns are left out. */
  datatype Attempt = Attempt(
    outcome: Outcome, searched: seq<nat>, resultIds: seq<nat>, reranked: bool, lexicalCount: nat, vectorCount: nat,
    resultCount: nat, degradation: Option<Degradation>, warnings: seq<Warning>)

  datatype Ending = Returned(result: Result) | RagFailed | NotAuthorized

  /** The ports of one retrieval; the reranker answers for the candidates it is given. */
  datatype Ports = Ports(
    authorize: Port<seq<nat>>, lexical: Port<seq<Candidate>>, vector: Port<seq<Candidate>>,
    rerank: (seq<Chunk>, nat) -> Port<seq<Chunk>>)

  /** The check constraint on audit rows. */
  predicate Census(a: Attempt) {
    || (a.outcome.ALLOWED? && a.degradation.Some?)
    || (a.outcome.DENIED? && a.degradation.None? && a.searched == [] && a.lexicalCount == 0 && a.vectorCount == 0
        && a.resultCount == 0)
    || (a.outcome.RAG_FAILED? && a.resultCount == 0)
  }

  function Bare(outcome: Outcome, searched: seq<nat>, lexicalCount: nat, warnings: seq<Warning>): Attempt {
    Attempt(outcome, searched, [], false, lexicalCount, 0, 0, None, warnings)
  }

  function Ids(chunks: seq<Chunk>): seq<nat> { seq(|chunks|, i requires 0 <= i < |chunks| => chunks[i].id) }

  function Of(outcome: Outcome, r: Result, warnings: seq<Warning>): Attempt {
    Attempt(outcome, r.searched, Ids(r.chunks), true, r.lexicalCount, r.vectorCount, |r.chunks|, Some(r.degradation),
            if warnings != [] then warnings else r.warnings)
  }

  function Prefix(chunks: seq<Chunk>, k: nat): seq<Chunk> { chunks[..Least(k, |chunks|)] }

  /** The result when both arms answered or the vector arm degraded. */
  function Fused(q: Request, p: Ports, searched: seq<nat>, lexical: seq<Candidate>): Result {
    var vector := if p.vector.Answer? then p.vector.value else [];
    var fused := Fusion(lexical, vector, q.indexVersion);
    var degradation :=
      match p.vector case Answer(_) => NONE case IndexMismatch => INDEX_MISMATCH case _ => LEXICAL_ONLY;
    var warnings := match p.vector
      case Answer(_) => [] case IndexMismatch => [MISMATCH_RETAINED] case _ => [LEXICAL_RETAINED];
    var reranked := p.rerank(fused, q.finalK);
    if reranked.Answer? && ValidReranking(reranked.value, fused, q.finalK) then
      Result(searched, |lexical|, |vector|, degradation, warnings, reranked.value)
    else
      Result(searched, |lexical|, |vector|, RERANKER_FAILED, warnings + [FUSED_ORDER_RETAINED], Prefix(fused, q.finalK))
  }

  function Retrieve(q: Request, p: Ports): (Ending, Attempt) {
    if !p.authorize.Answer? then (RagFailed, Bare(RAG_FAILED, [], 0, [NO_AUTHORIZATION]))
    else if p.authorize.value == [] then (NotAuthorized, Bare(DENIED, [], 0, []))
    else if !p.lexical.Answer? then (RagFailed, Bare(RAG_FAILED, p.authorize.value, 0, [NO_LEXICAL]))
    else if p.vector.Permanent? then
      (RagFailed, Bare(RAG_FAILED, p.authorize.value, |p.lexical.value|, [NO_VECTOR]))
    else
      var r := Fused(q, p, p.authorize.value, p.lexical.value);
      if q.expectedMatch && r.chunks == [] then (RagFailed, Of(RAG_FAILED, r, r.warnings + [NO_CANDIDATES]))
      else (Returned(r), Of(ALLOWED, r, []))
  }

  /** For every behaviour of the ports the audit row satisfies the census constraint, is ALLOWED exactly when a result
      is returned and then describes it, and is DENIED exactly when nothing is authorized. */
  lemma AuditObligation(q: Request, p: Ports)
    ensures var (ending, a) := Retrieve(q, p);
            && Census(a) && a.resultCount == |a.resultIds|
            && (a.outcome.ALLOWED? <==> ending.Returned?)
            && (a.outcome.RAG_FAILED? <==> ending.RagFailed?)
            && (a.outcome.DENIED? <==> p.authorize.Answer? && p.authorize.value == [])
            && (ending.Returned? ==>
                  && a.resultIds == Ids(ending.result.chunks) && a.searched == ending.result.searched != []
                  && a.lexicalCount == ending.result.lexicalCount && a.vectorCount == ending.result.vectorCount
                  && a.degradation == Some(ending.result.degradation) && a.warnings == ending.result.warnings)
            && (ending.Returned? && q.expectedMatch ==> ending.result.chunks != [])
  {
    hide Fusion, ValidReranking;
  }

  /** A returned result holds min(k, fused) different chunks, each a fused chunk changed at most in its rerank score;
      when the reranker failed they are the first ones in fused order. */
  lemma ResultsAreFusedChunks(q: Request, p: Ports)
    requires Retrieve(q, p).0.Returned?
    ensures p.lexical.Answer? && !p.vector.Permanent? &&
            var r := Retrieve(q, p).0.result;
            var fused := Fusion(p.lexical.value, if p.vector.Answer? then p.vector.value else [], q.indexVersion);
            && ValidReranking(r.chunks, fused, q.finalK)
            && (r.degradation.RERANKER_FAILED? ==> r.chunks == Prefix(fused, q.finalK))
            && (r.degradation.LEXICAL_ONLY? ==> p.vector.Transient?)
            && (r.degradation.INDEX_MISMATCH? ==> p.vector.IndexMismatch?)
  {
    var lexical, vector := p.lexical.value, if p.vector.Answer? then p.vector.value else [];
    FusionIsExact(lexical, vector, q.indexVersion);
    PrefixIsValid(Fusion(lexical, vector, q.indexVersion), q.finalK);
  }

  lemma PrefixIsValid(fused: seq<Chunk>, k: nat)
    requires forall i, j | 0 <= i < j < |fused| :: fused[i].id != fused[j].id
    ensures ValidReranking(Prefix(fused, k), fused, k)
  {
    forall i | 0 <= i < |Prefix(fused, k)| ensures FromCandidates(Prefix(fused, k)[i], fused) {
      assert SameButRerankScore(Prefix(fused, k)[i], fused[i]);
    }
  }

  class HybridRetriever {
    var audits: seq<Attempt>

    constructor ()
      ensures audits == []
    {
      audits := [];
    }

    /** Every path appends exactly one audit row. */
    method RetrieveAndAudit(q: Request, p: Ports) returns (ending: Ending)
      modifies this
      ensures ending == Retrieve(q, p).0
      ensures audits == old(audits) + [Retrieve(q, p).1]
    {
      if !p.authorize.Answer? {
        audits := audits + [Bare(RAG_FAILED, [], 0, [NO_AUTHORIZATION])];
        return RagFailed;
      }
      var searched := p.authorize.value;
      if searched == [] {
        audits := audits + [Bare(DENIED, [], 0, [])];
        return NotAuthorized;
      }
      if !p.lexical.Answer? {
        audits := audits + [Bare(RAG_FAILED, searched, 0, [NO_LEXICAL])];
        return RagFailed;
      }
      var lexical := p.lexical.value;
      var vector, degradation, warnings := [], NONE, [];
      match p.vector {
        case Answer(found) => vector := found;
        case Transient => degradation, warnings := LEXICAL_ONLY, [LEXICAL_RETAINED];
        case IndexMismatch => degradation, warnings := INDEX_MISMATCH, [MISMATCH_RETAINED];
        case Permanent =>
          audits := audits + [Bare(RAG_FAILED, searched, |lexical|, [NO_VECTOR])];
          return RagFailed;
      }
      var fused := ReciprocalRankFusion(lexical, vector, q.indexVersion);
      var selected := fused[..Least(q.finalK, |fused|)];
      var reranked := p.rerank(fused, q.finalK);
      var valid := false;
      if reranked.Answer? {
        FusionIsExact(lexical, vector, q.indexVersion);
        valid := ValidateRerankerOutput(reranked.value, fused, q.finalK);
      }
      if valid {
        selected := reranked.value;
      } else {
        degradation, warnings := RERANKER_FAILED, warnings + [FUSED_ORDER_RETAINED];
      }
      var result := Result(searched, |lexical|, |vector|, degradation, warnings, selected);
      assert result == Fused(q, p, searched, lexical);
      if q.expectedMatch && result.chunks == [] {
        audits := audits + [Of(RAG_FAILED, result, warnings + [NO_CANDIDATES])];
        return RagFailed;
      }
      audits := audits + [Of(ALLOWED, result, [])];
      return Returned(result);
    }
  }
}
