/** The three ranking strategies: weighted, evidence-weighted and constraint-aware. */
module ConsensusStrategies {
  import opened Options
  import opened ConsensusEvidence
  import opened ConsensusDominance
  import opened Sorting

  datatype Feasibility = SAT | UNSAT | UNKNOWN
  datatype Verdict = Verdict(alternative: Id, status: Feasibility)
  datatype Critique = Critique(id: Id, severity: string, resolution: string)
  datatype Objective = Objective(id: Id, weight: real, conflicting: bool)

  /** `values` gives the value of an alternative on an objective. */
  datatype Context = Context(
    alternatives: seq<Id>, verdicts: seq<Verdict>, positions: seq<Position>, critiques: seq<Critique>,
    objectives: seq<Objective>, values: map<Id, map<Id, real>>, evidence: seq<Citation>, params: Params)

  datatype Outcome = FULL_CONSENSUS | PARTIAL_CONSENSUS | CONDITIONAL_CONSENSUS | NO_CONSENSUS
                   | INSUFFICIENT_EVIDENCE | INFEASIBLE | PARETO_SET

  datatype Score = Score(
    alternative: Id, rank: nat, support: real, value: Option<real>, rankScore: Option<real>, unknown: bool)

  datatype Decision = Decision(
    outcome: Outcome, scores: seq<Score>, selected: Option<Id>, support: Option<real>, pareto: seq<Id>,
    thresholdBound: bool, blocking: seq<Id>)

  /** `DivisionByZero` and `EmptyRanking` are the exceptions an evaluation may raise. */
  datatype Evaluation = Decided(decision: Decision) | DivisionByZero | EmptyRanking

  // ---------------------------------------------------------------- shared parts

  /** Later verdicts on the same alternative win; without one there is no symbolic claim. */
  function StatusOf(verdicts: seq<Verdict>, a: Id): Feasibility {
    if verdicts == [] then SAT
    else if verdicts[|verdicts| - 1].alternative == a then verdicts[|verdicts| - 1].status
    else StatusOf(verdicts[..|verdicts| - 1], a)
  }

  function Feasible(alternatives: seq<Id>, verdicts: seq<Verdict>): seq<Id> {
    if alternatives == [] then []
    else
      var n := |alternatives| - 1;
      Feasible(alternatives[..n], verdicts)
      + if StatusOf(verdicts, alternatives[n]).UNSAT? then [] else [alternatives[n]]
  }

  function Rankable(x: Context): seq<Id> { Feasible(x.alternatives, x.verdicts) }
  predicate Unknown(x: Context, a: Id) { StatusOf(x.verdicts, a).UNKNOWN? }

  predicate Unresolved(resolution: string) {
    resolution == "OPEN" || resolution == "UNRESOLVED" || resolution == "DISPUTED"
  }

  function Blocking(critiques: seq<Critique>): seq<Id> {
    if critiques == [] then []
    else
      var c := critiques[|critiques| - 1];
      Blocking(critiques[..|critiques| - 1])
      + if c.severity == "BLOCKING" && Unresolved(c.resolution) then [c.id] else []
  }

  function RelevantTo(x: Context, a: Id): seq<Position> { Relevants(x.positions, a, x.params) }
  function Plain(x: Context, a: Id): real { PlainSupport(RelevantTo(x, a), x.params) }
  function EvidenceTotal(x: Context, a: Id): real { EvidenceSum(RelevantTo(x, a), x.evidence, x.params) }

  predicate DivisibleFor(x: Context, a: Id) { AllDivisible(RelevantTo(x, a), x.evidence, x.params) }

  predicate Computable(x: Context) { forall i | 0 <= i < |Rankable(x)| :: DivisibleFor(x, Rankable(x)[i]) }

  function Mixed(x: Context, a: Id): real
    requires DivisibleFor(x, a)
  {
    Blended(RelevantTo(x, a), x.evidence, x.params)
  }

  function ObjectiveValue(x: Context, k: Id, a: Id): Option<real> {
    if k in x.values && a in x.values[k] then Some(x.values[k][a]) else None
  }

  /** The weighted sum of the values an alternative has; none when it has no value at all. */
  function WeightedValue(x: Context, objectives: seq<Objective>, a: Id): Option<real> {
    if objectives == [] then None
    else
      var o := objectives[|objectives| - 1];
      var rest := WeightedValue(x, objectives[..|objectives| - 1], a);
      var v := ObjectiveValue(x, o.id, a);
      if v.None? then rest else Some((if rest.Some? then rest.value else 0.0) + o.weight * v.value)
  }

  function RankScore(x: Context, a: Id, support: real): real {
    var v := WeightedValue(x, x.objectives, a);
    if v.Some? then x.params.alpha * support + (1.0 - x.params.alpha) * v.value else support
  }

  function At(m: map<Id, real>, a: Id): real { if a in m then m[a] else 0.0 }

  function Falling(m: map<Id, real>): (Id, Id) -> bool { (a: Id, b: Id) => At(m, a) >= At(m, b) }

  /** Stable, from the highest score to the lowest. */
  function Ranked(ids: seq<Id>, m: map<Id, real>): seq<Id> { Sort(Falling(m), ids) }

  function Unit(support: real): real { Max(0.0, Min(1.0, support)) }

  predicate Supportive(x: Context, a: Id) {
    forall i | 0 <= i < |x.positions| && x.positions[i].alternative == a ::
      x.positions[i].stance == "SUPPORT" || x.positions[i].stance == "ABSTAIN"
  }

  /** A blocking critique caps at PARTIAL_CONSENSUS. */
  function BlockingGate(blocking: seq<Id>, candidate: Outcome): Outcome {
    if blocking != [] && candidate.FULL_CONSENSUS? then PARTIAL_CONSENSUS else candidate
  }

  function Classify(x: Context, leader: Id, support: real): Outcome {
    var byThreshold :=
      if support >= x.params.agreement && Supportive(x, leader) then FULL_CONSENSUS
      else if support >= x.params.partiality then PARTIAL_CONSENSUS
      else NO_CONSENSUS;
    BlockingGate(Blocking(x.critiques), if Unknown(x, leader) then CONDITIONAL_CONSENSUS else byThreshold)
  }

  predicate Selects(o: Outcome) { o.FULL_CONSENSUS? || o.PARTIAL_CONSENSUS? || o.CONDITIONAL_CONSENSUS? }

  function Stopped(x: Context, outcome: Outcome): Decision {
    Decision(outcome, [], None, None, [], false, if outcome.INFEASIBLE? then [] else Blocking(x.critiques))
  }

  function Conclude(x: Context, scores: seq<Score>, thresholdBound: bool): Decision
    requires scores != []
  {
    var leader := scores[0];
    var outcome := Classify(x, leader.alternative, leader.support);
    Decision(outcome, scores, if Selects(outcome) then Some(leader.alternative) else None, Some(leader.support), [],
             thresholdBound, Blocking(x.critiques))
  }

  function ScoresOf(x: Context, ids: seq<Id>, support: map<Id, real>, rank: map<Id, real>): (r: seq<Score>)
    ensures |r| == |ids| && forall i | 0 <= i < |ids| :: r[i].alternative == ids[i]
  {
    seq(|ids|, i requires 0 <= i < |ids| =>
      Score(ids[i], i + 1, Unit(At(support, ids[i])), WeightedValue(x, x.objectives, ids[i]),
            Some(At(rank, ids[i])), Unknown(x, ids[i])))
  }

  // ---------------------------------------------------------------- weighted and evidence-weighted

  function PlainMap(x: Context): map<Id, real> { map a | a in Rankable(x) :: Plain(x, a) }

  function MixedMap(x: Context): map<Id, real>
    requires Computable(x)
  {
    map a | a in Rankable(x) :: Mixed(x, a)
  }

  function RankMap(x: Context, support: map<Id, real>): map<Id, real> {
    map a | a in support :: RankScore(x, a, support[a])
  }

  function RankedScores(x: Context, support: map<Id, real>): seq<Score> {
    ScoresOf(x, Ranked(Rankable(x), RankMap(x, support)), support, RankMap(x, support))
  }

  function Weighted(x: Context): Decision {
    var scores := RankedScores(x, PlainMap(x));
    if scores == [] then Stopped(x, INFEASIBLE) else Conclude(x, scores, false)
  }

  function EvidenceWeighted(x: Context): Evaluation {
    if !Computable(x) then DivisionByZero
    else
      var scores := RankedScores(x, MixedMap(x));
      if scores == [] then Decided(Stopped(x, INFEASIBLE))
      else if EvidenceTotal(x, scores[0].alternative) == 0.0 then
        Decided(Stopped(x, INSUFFICIENT_EVIDENCE).(scores := scores))
      else Decided(Conclude(x, scores, false))
  }

  // ---------------------------------------------------------------- constraint-aware

  /** Stage 2: the evidence floor. */
  function Evidenced(x: Context, ids: seq<Id>): seq<Id> {
    if ids == [] then []
    else
      var n := |ids| - 1;
      Evidenced(x, ids[..n])
      + if x.params.allowUnevidenced || EvidenceTotal(x, ids[n]) > 0.0 then [ids[n]] else []
  }

  function ObjectiveIds(objectives: seq<Objective>): seq<Id> {
    seq(|objectives|, i requires 0 <= i < |objectives| => objectives[i].id)
  }

  function ValuesFor(x: Context, a: Id): Values {
    map k | k in ObjectiveIds(x.objectives) && ObjectiveValue(x, k, a).Some? :: ObjectiveValue(x, k, a).value
  }

  function ValueTable(x: Context, ids: seq<Id>): map<Id, Values> { map a | a in ids :: ValuesFor(x, a) }

  /** Stage 3: the undominated alternatives among those with evidence. */
  function Frontier(x: Context): seq<Id> {
    var ids := Evidenced(x, Rankable(x));
    Undominated(ids, ValueTable(x, ids), ObjectiveIds(x.objectives), x.params.epsilon)
  }

  /** The first of `ids` with the highest value on objective `k`. */
  function Best(x: Context, k: Id, ids: seq<Id>): Option<Id> {
    if ids == [] then None
    else
      var n := |ids| - 1;
      var best := Best(x, k, ids[..n]);
      var v := ObjectiveValue(x, k, ids[n]);
      if v.Some? && (best.None? || ObjectiveValue(x, k, best.value).None?
                     || v.value > ObjectiveValue(x, k, best.value).value)
      then Some(ids[n]) else best
  }

  function Bests(x: Context, objectives: seq<Objective>, ids: seq<Id>): set<Id> {
    if objectives == [] then {}
    else
      var n := |objectives| - 1;
      var best := Best(x, objectives[n].id, ids);
      Bests(x, objectives[..n], ids) + if best.Some? then {best.value} else {}
  }

  /** Stage 4: declared conflict, and different alternatives best on different objectives. */
  predicate Conflicting(x: Context, ids: seq<Id>) {
    && (exists i | 0 <= i < |x.objectives| :: x.objectives[i].conflicting)
    && |Bests(x, x.objectives, ids)| >= 2 && |ids| > 1
  }

  function FrontierScores(x: Context, ids: seq<Id>, support: map<Id, real>): seq<Score> {
    seq(|ids|, i requires 0 <= i < |ids| => Score(ids[i], i + 1, Unit(At(support, ids[i])), None, None, false))
  }

  function SupportScores(x: Context, ids: seq<Id>, support: map<Id, real>): (r: seq<Score>)
    ensures |r| == |ids| && forall i | 0 <= i < |ids| :: r[i].alternative == ids[i]
  {
    seq(|ids|, i requires 0 <= i < |ids| =>
      Score(ids[i], i + 1, Unit(At(support, ids[i])), None, Some(At(support, ids[i])), Unknown(x, ids[i])))
  }

  function Abs(v: real): real { if v < 0.0 then -v else v }

  /** Stage 6: the two best are closer than the flip distance. */
  predicate ThresholdBound(x: Context, scores: seq<Score>) {
    |scores| >= 2 && Abs(scores[0].support - scores[1].support) < x.params.minFlip
  }

  /** Stages 4 to 7 on a frontier. */
  function FromFrontier(x: Context, frontier: seq<Id>, support: map<Id, real>): Evaluation {
    if Conflicting(x, frontier) then
      Decided(Decision(BlockingGate(Blocking(x.critiques), PARETO_SET), FrontierScores(x, frontier, support), None,
                       None, frontier, false, Blocking(x.critiques)))
    else
      var scores := SupportScores(x, Ranked(frontier, support), support);
      if scores == [] then EmptyRanking else Decided(Conclude(x, scores, ThresholdBound(x, scores)))
  }

  function ConstraintAware(x: Context): Evaluation {
    if Rankable(x) == [] then Decided(Stopped(x, INFEASIBLE))
    else if !Computable(x) then DivisionByZero
    else if Evidenced(x, Rankable(x)) == [] then Decided(Stopped(x, INSUFFICIENT_EVIDENCE))
    else FromFrontier(x, Frontier(x), MixedMap(x))
  }

  // ---------------------------------------------------------------- selection

  lemma FallingIsPreorder(m: map<Id, real>)
    ensures TotalPreorder(Falling(m))
  {
  }

  /** The first of a ranking has the highest score of all. */
  lemma LeaderIsMaximal(ids: seq<Id>, m: map<Id, real>)
    requires ids != []
    ensures |Ranked(ids, m)| == |ids| && Ranked(ids, m)[0] in ids
    ensures forall b | b in ids :: At(m, b) <= At(m, Ranked(ids, m)[0])
  {
    hide Ranked, Sort;
    FallingIsPreorder(m);
    RankedIsSort(ids, m);
    SortSorted(Falling(m), ids);
    MembersOfSort(Falling(m), ids);
    var sorted := Sort(Falling(m), ids);
    forall b | b in ids ensures At(m, b) <= At(m, sorted[0]) {
      assert b in sorted;
      HeadOfSorted(Falling(m), sorted, b);
    }
  }

  lemma RankedIsSort(ids: seq<Id>, m: map<Id, real>)
    ensures Ranked(ids, m) == Sort(Falling(m), ids)
  {
  }

  lemma RankedLength(ids: seq<Id>, m: map<Id, real>)
    ensures |Ranked(ids, m)| == |ids|
  {
    MembersOfSort(Falling(m), ids);
  }

  lemma {:induction false} EvidencedMembers(x: Context, ids: seq<Id>, a: Id)
    requires a in Evidenced(x, ids)
    ensures a in ids && (x.params.allowUnevidenced || EvidenceTotal(x, a) > 0.0)
  {
    hide EvidenceTotal;
    var n := |ids| - 1;
    if a in Evidenced(x, ids[..n]) { EvidencedMembers(x, ids[..n], a); }
  }

  lemma FrontierMembers(x: Context, a: Id)
    requires a in Frontier(x)
    ensures a in Evidenced(x, Rankable(x))
  {
    hide Evidenced;
    var ids := Evidenced(x, Rankable(x));
    UndominatedMembers(|ids|, ids, ValueTable(x, ids), ObjectiveIds(x.objectives), x.params.epsilon);
  }

  /** A selected alternative is rankable, passes the evidence floor unless that is off, is dominated by no alternative
      that passes it, and has the highest support of all undominated ones; full consensus moreover means no open
      blocking critique, a feasibility that is not UNKNOWN, enough support and only SUPPORT or ABSTAIN positions. */
  lemma SelectionIsSound(x: Context)
    requires ConstraintAware(x).Decided? && ConstraintAware(x).decision.selected.Some?
    ensures Computable(x) && var d := ConstraintAware(x).decision;
            var a := d.selected.value;
            && Selects(d.outcome)
            && a in Rankable(x) && a in Evidenced(x, Rankable(x))
            && (x.params.allowUnevidenced || EvidenceTotal(x, a) > 0.0)
            && a in Frontier(x)
            && (forall b | b in Frontier(x) :: At(MixedMap(x), b) <= At(MixedMap(x), a))
            && d.support == Some(Unit(At(MixedMap(x), a)))
            && (d.outcome.FULL_CONSENSUS? ==>
                  Blocking(x.critiques) == [] && !Unknown(x, a) && d.support.value >= x.params.agreement
                  && Supportive(x, a))
            && (d.outcome.PARTIAL_CONSENSUS? ==>
                  !Unknown(x, a) && (d.support.value >= x.params.partiality || Blocking(x.critiques) != []))
            && (d.outcome.CONDITIONAL_CONSENSUS? <==> Unknown(x, a))
  {
    hide Frontier, Evidenced, MixedMap, EvidenceTotal, Conflicting, Ranked, Computable, Rankable, ThresholdBound,
         Blocking, StatusOf;
    var m := MixedMap(x);
    RankedLength(Frontier(x), m);
    LeaderIsMaximal(Frontier(x), m);
    var a := Ranked(Frontier(x), m)[0];
    FrontierMembers(x, a);
    EvidencedMembers(x, Rankable(x), a);
  }

  /** With epsilon >= 0 the evaluation never indexes an empty ranking. */
  lemma NeverEmptyRanking(x: Context)
    requires x.params.epsilon >= 0.0
    ensures ConstraintAware(x) != EmptyRanking
  {
    hide Evidenced, MixedMap, Conflicting, Computable, Rankable, Undominated;
    if Rankable(x) != [] && Computable(x) && Evidenced(x, Rankable(x)) != [] {
      var ids := Evidenced(x, Rankable(x));
      var u := DominatedByUndominated(ids[0], ids, ValueTable(x, ids), ObjectiveIds(x.objectives), x.params.epsilon);
      LeaderIsMaximal(Frontier(x), MixedMap(x));
    }
  }

  // ---------------------------------------------------------------- strategies that agree

  ghost predicate AllUnitScores(x: Context) { UnitScores(x.positions, x.params) }

  lemma {:induction false} RelevantUnitScores(ps: seq<Position>, a: Id, q: Params)
    requires UnitScores(ps, q)
    ensures UnitScores(Relevants(ps, a, q), q)
  {
    hide PositionScore;
    if ps != [] { RelevantUnitScores(ps[..|ps| - 1], a, q); }
  }

  /** Without lambda, both support tables are the same. */
  lemma SameSupport(x: Context)
    requires x.params.lambda == 0.0 && AllUnitScores(x) && Computable(x)
    ensures MixedMap(x) == PlainMap(x)
  {
    hide Blended, PlainSupport, UnitScores, AllDivisible;
    forall a | a in Rankable(x) ensures Mixed(x, a) == Plain(x, a) {
      RelevantUnitScores(x.positions, a, x.params);
      var i :| 0 <= i < |Rankable(x)| && Rankable(x)[i] == a;
      assert DivisibleFor(x, Rankable(x)[i]);
      BlendedWithoutLambda(RelevantTo(x, a), x.evidence, x.params);
    }
  }

  /** With lambda = 0 and position scores in [0, 1], evidence-weighted evaluation gives weighted's ranking, leader,
      outcome and selection exactly when nothing is rankable or the leader has evidence. */
  lemma EvidenceWeightedAgrees(x: Context)
    requires x.params.lambda == 0.0 && AllUnitScores(x) && Computable(x)
    ensures EvidenceWeighted(x) == Decided(Weighted(x))
       <==> Weighted(x).scores == [] || EvidenceTotal(x, Weighted(x).scores[0].alternative) != 0.0
    ensures EvidenceWeighted(x).Decided? && EvidenceWeighted(x).decision.scores == Weighted(x).scores
  {
    hide MixedMap, PlainMap, EvidenceTotal, AllUnitScores, Computable, RankedScores, Classify;
    SameSupport(x);
    ClassifyHasEvidence(x);
  }

  lemma ClassifyHasEvidence(x: Context)
    ensures forall a, support :: !Classify(x, a, support).INSUFFICIENT_EVIDENCE?
  {
  }

  lemma {:induction false} EverythingAllowed(x: Context, ids: seq<Id>)
    requires x.params.allowUnevidenced
    ensures Evidenced(x, ids) == ids
  {
    hide EvidenceTotal;
    if ids != [] { EverythingAllowed(x, ids[..|ids| - 1]); }
  }

  /** Without objectives the score by which weighted ranks is the support itself. */
  lemma RankMapWithoutObjectives(x: Context, m: map<Id, real>)
    requires x.objectives == []
    ensures RankMap(x, m) == m
  {
  }

  /** Without objectives, with the evidence floor off, lambda = 0 and position scores in [0, 1], constraint-aware
      evaluation reaches weighted's decision; it adds only whether the two best are too close. */
  lemma ConstraintAwareAgrees(x: Context)
    requires x.objectives == [] && x.params.allowUnevidenced
    requires x.params.lambda == 0.0 && AllUnitScores(x) && Computable(x)
    ensures ConstraintAware(x).Decided?
    ensures ConstraintAware(x).decision.(thresholdBound := false) == Weighted(x)
  {
    hide MixedMap, PlainMap, EvidenceTotal, AllUnitScores, Computable, Rankable, Evidenced, Sort, Undominated, Classify,
         ValueTable, Blocking;
    SameSupport(x);
    EverythingAllowed(x, Rankable(x));
    var ids := Rankable(x);
    FrontierWithoutObjectives(x);
    RankMapWithoutObjectives(x, PlainMap(x));
    MembersOfSort(Falling(PlainMap(x)), ids);
    assert SupportScores(x, Ranked(ids, PlainMap(x)), PlainMap(x)) == RankedScores(x, PlainMap(x));
  }

  lemma FrontierWithoutObjectives(x: Context)
    requires x.objectives == []
    ensures Frontier(x) == Evidenced(x, Rankable(x))
  {
    hide Evidenced, Rankable;
    var ids := Evidenced(x, Rankable(x));
    assert ObjectiveIds(x.objectives) == [];
    NothingDominatedWithoutObjectives(|ids|, ids, ValueTable(x, ids), x.params.epsilon);
    assert ids[..|ids|] == ids;
  }

  // ---------------------------------------------------------------- the evaluations

  method FilterFeasible(x: Context) returns (ids: seq<Id>)
    ensures ids == Rankable(x)
  {
    ids := [];
    var i := 0;
    while i < |x.alternatives|
      invariant 0 <= i <= |x.alternatives| && ids == Feasible(x.alternatives[..i], x.verdicts)
    {
      assert x.alternatives[..i + 1][..i] == x.alternatives[..i];
      if !StatusOf(x.verdicts, x.alternatives[i]).UNSAT? { ids := ids + [x.alternatives[i]]; }
      i := i + 1;
    }
    assert x.alternatives[..i] == x.alternatives;
  }

  ghost predicate TotalsUpTo(x: Context, ids: seq<Id>, totals: map<Id, real>, support: map<Id, real>) {
    && (forall a :: a in totals <==> a in ids) && support.Keys == totals.Keys
    && forall a | a in totals :: DivisibleFor(x, a) && totals[a] == EvidenceTotal(x, a) && support[a] == Mixed(x, a)
  }

  /** Evidence totals and blended supports of the rankable alternatives; none when a ratio divides by zero. */
  method Supports(x: Context, ids: seq<Id>) returns (r: Option<(map<Id, real>, map<Id, real>)>)
    requires ids == Rankable(x)
    ensures r.Some? <==> Computable(x)
    ensures r.Some? ==> TotalsUpTo(x, ids, r.value.0, r.value.1) && r.value.1 == MixedMap(x)
  {
    hide AllDivisible, EvidenceSum, Blended, Rankable, Relevants;
    var totals: map<Id, real>, support: map<Id, real> := map[], map[];
    var i := 0;
    while i < |ids|
      invariant 0 <= i <= |ids| && TotalsUpTo(x, ids[..i], totals, support)
      invariant forall j | 0 <= j < i :: DivisibleFor(x, ids[j])
    {
      var found := SupportOf(RelevantTo(x, ids[i]), x.evidence, x.params);
      if found.None? { return None; }
      assert ids[..i + 1] == ids[..i] + [ids[i]];
      totals, support := totals[ids[i] := found.value.0], support[ids[i] := found.value.1];
      i := i + 1;
    }
    assert ids[..i] == ids;
    return Some((totals, support));
  }

  method EvaluateWeighted(x: Context) returns (d: Decision)
    ensures d == Weighted(x)
  {
    hide Rankable, Feasible, Plain, RankScore, Conclude, Ranked, ScoresOf;
    var ids := FilterFeasible(x);
    var support: map<Id, real>, ranks: map<Id, real> := map[], map[];
    var i := 0;
    while i < |ids|
      invariant 0 <= i <= |ids| && (forall a :: a in support <==> a in ids[..i]) && ranks.Keys == support.Keys
      invariant forall a | a in support :: support[a] == Plain(x, a) && ranks[a] == RankScore(x, a, support[a])
    {
      var a := ids[i];
      assert ids[..i + 1] == ids[..i] + [a];
      support := support[a := Plain(x, a)];
      ranks := ranks[a := RankScore(x, a, support[a])];
      i := i + 1;
    }
    assert ids[..i] == ids;
    assert support == PlainMap(x);
    assert ranks == RankMap(x, support);
    var scores := ScoresOf(x, Ranked(ids, ranks), support, ranks);
    return if scores == [] then Stopped(x, INFEASIBLE) else Conclude(x, scores, false);
  }

  method EvaluateEvidenceWeighted(x: Context) returns (r: Evaluation)
    ensures r == EvidenceWeighted(x)
  {
    hide Rankable, Blended, EvidenceSum, AllDivisible, Conclude, Computable, Feasible, Mixed, Relevants;
    var ids := FilterFeasible(x);
    if ids == [] {
      NothingToRank(x);
      return Decided(Stopped(x, INFEASIBLE));
    }
    var found := Supports(x, ids);
    if found.None? { return DivisionByZero; }
    var ranks := RankMap(x, found.value.1);
    RankedLength(ids, ranks);
    LeaderIsMaximal(ids, ranks);
    var scores := ScoresOf(x, Ranked(ids, ranks), found.value.1, ranks);
    if found.value.0[scores[0].alternative] == 0.0 {
      return Decided(Stopped(x, INSUFFICIENT_EVIDENCE).(scores := scores));
    }
    return Decided(Conclude(x, scores, false));
  }

  lemma NothingToRank(x: Context)
    requires Rankable(x) == []
    ensures Computable(x) && RankedScores(x, MixedMap(x)) == []
  {
  }

  method EvidenceFloor(x: Context, ids: seq<Id>, totals: map<Id, real>, ghost support: map<Id, real>)
    returns (kept: seq<Id>)
    requires TotalsUpTo(x, ids, totals, support)
    ensures kept == Evidenced(x, ids)
  {
    hide EvidenceSum, Blended, AllDivisible, EvidenceTotal;
    kept := [];
    var i := 0;
    while i < |ids|
      invariant 0 <= i <= |ids| && kept == Evidenced(x, ids[..i])
    {
      assert ids[..i + 1][..i] == ids[..i];
      if x.params.allowUnevidenced || totals[ids[i]] > 0.0 { kept := kept + [ids[i]]; }
      i := i + 1;
    }
    assert ids[..i] == ids;
  }

  lemma {:induction false} BestHasValue(x: Context, k: Id, ids: seq<Id>)
    ensures Best(x, k, ids).Some? ==> ObjectiveValue(x, k, Best(x, k, ids).value).Some?
  {
    if ids != [] { BestHasValue(x, k, ids[..|ids| - 1]); }
  }

  /** The alternatives that are best on some objective. */
  method FindBests(x: Context, frontier: seq<Id>) returns (bests: set<Id>)
    ensures bests == Bests(x, x.objectives, frontier)
  {
    bests := {};
    var n := 0;
    while n < |x.objectives|
      invariant 0 <= n <= |x.objectives| && bests == Bests(x, x.objectives[..n], frontier)
    {
      var k := x.objectives[n].id;
      var best: Option<Id>, value := None, 0.0;
      var i := 0;
      while i < |frontier|
        invariant 0 <= i <= |frontier| && best == Best(x, k, frontier[..i])
        invariant best.Some? ==> ObjectiveValue(x, k, best.value) == Some(value)
      {
        assert frontier[..i + 1][..i] == frontier[..i];
        var v := ObjectiveValue(x, k, frontier[i]);
        if v.Some? && (best.None? || v.value > value) { best, value := Some(frontier[i]), v.value; }
        i := i + 1;
      }
      assert frontier[..i] == frontier;
      assert x.objectives[..n + 1][..n] == x.objectives[..n];
      if best.Some? { bests := bests + {best.value}; }
      n := n + 1;
    }
    assert x.objectives[..n] == x.objectives;
  }

  method EvaluateConstraintAware(x: Context) returns (r: Evaluation)
    ensures r == ConstraintAware(x)
  {
    hide Rankable, Computable, Feasible, MixedMap, Evidenced, Undominated, TotalsUpTo, Conclude, Ranked, ValueTable,
         Bests;
    var ids := FilterFeasible(x);
    if ids == [] { return Decided(Stopped(x, INFEASIBLE)); }
    var found := Supports(x, ids);
    if found.None? { return DivisionByZero; }
    var kept := EvidenceFloor(x, ids, found.value.0, found.value.1);
    if kept == [] { return Decided(Stopped(x, INSUFFICIENT_EVIDENCE)); }
    var frontier := FindUndominated(kept, ValueTable(x, kept), ObjectiveIds(x.objectives), x.params.epsilon);
    var bests := FindBests(x, frontier);
    if (exists i | 0 <= i < |x.objectives| :: x.objectives[i].conflicting) && |bests| >= 2 && |frontier| > 1 {
      return Decided(Decision(BlockingGate(Blocking(x.critiques), PARETO_SET),
                              FrontierScores(x, frontier, found.value.1), None, None, frontier, false,
                              Blocking(x.critiques)));
    }
    var scores := SupportScores(x, Ranked(frontier, found.value.1), found.value.1);
    if scores == [] { return EmptyRanking; }
    return Decided(Conclude(x, scores, ThresholdBound(x, scores)));
  }
}
