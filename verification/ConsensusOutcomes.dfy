/** Where the outcomes of the strategies part from their formal description, each with its exact condition. */
module ConsensusOutcomes {
  import opened Options
  import opened ConsensusEvidence
  import opened ConsensusDominance
  import opened ConsensusStrategies
  import opened Sorting

  // ---------------------------------------------------------------- when an alternative is selected

  datatype Strategy = WEIGHTED | EVIDENCE_WEIGHTED | CONSTRAINT_AWARE

  function Evaluate(strategy: Strategy, x: Context): Evaluation {
    match strategy
    case WEIGHTED => Decided(Weighted(x))
    case EVIDENCE_WEIGHTED => EvidenceWeighted(x)
    case CONSTRAINT_AWARE => ConstraintAware(x)
  }

  /** The alternative that a strategy classifies, with its support; none when the evaluation stops before that. */
  function Leader(strategy: Strategy, x: Context): Option<(Id, real)> {
    match strategy
    case WEIGHTED => First(Ranked(Rankable(x), RankMap(x, PlainMap(x))), PlainMap(x))
    case _ => if Computable(x) then EvidencedLeader(strategy, x) else None
  }

  function EvidencedLeader(strategy: Strategy, x: Context): Option<(Id, real)>
    requires Computable(x)
  {
    if strategy.CONSTRAINT_AWARE? then
      if Conflicting(x, Frontier(x)) then None else First(Ranked(Frontier(x), MixedMap(x)), MixedMap(x))
    else
      var leader := First(Ranked(Rankable(x), RankMap(x, MixedMap(x))), MixedMap(x));
      if leader.Some? && EvidenceTotal(x, leader.value.0) == 0.0 then None else leader
  }

  function First(ids: seq<Id>, support: map<Id, real>): Option<(Id, real)> {
    if ids == [] then None else Some((ids[0], Unit(At(support, ids[0]))))
  }

  /** The thresholds that an alternative of known feasibility has to meet. */
  predicate Convincing(x: Context, a: Id, support: real) {
    support >= x.params.partiality || (support >= x.params.agreement && Supportive(x, a))
  }

  lemma ConcludedIff(x: Context, scores: seq<Score>, thresholdBound: bool)
    requires scores != []
    ensures var d, a, support := Conclude(x, scores, thresholdBound), scores[0].alternative, scores[0].support;
            && d.support == Some(support)
            && d.selected == (if Unknown(x, a) || Convincing(x, a, support) then Some(a) else None)
  {
    hide StatusOf, Supportive;
  }

  /** A strategy selects the leader it classifies exactly when that is of UNKNOWN feasibility or convincing, and
      otherwise nothing. */
  lemma SelectedIff(strategy: Strategy, x: Context)
    requires Evaluate(strategy, x).Decided?
    ensures var d := Evaluate(strategy, x).decision;
            match Leader(strategy, x)
            case None => d.selected.None?
            case Some((a, support)) =>
              && d.support == Some(support)
              && d.selected == (if Unknown(x, a) || Convincing(x, a, support) then Some(a) else None)
  {
    hide Ranked, RankMap, PlainMap, MixedMap, Conclude, Rankable, Frontier, Conflicting, EvidenceTotal, Evidenced,
         Unknown, Convincing, Computable, ThresholdBound;
    match strategy {
      case WEIGHTED =>
        var scores := RankedScores(x, PlainMap(x));
        if scores != [] { ConcludedIff(x, scores, false); }
      case EVIDENCE_WEIGHTED =>
        var scores := RankedScores(x, MixedMap(x));
        if scores != [] { ConcludedIff(x, scores, false); }
      case CONSTRAINT_AWARE =>
        if Rankable(x) == [] { NothingToRank(x); }
        NothingEvidenced(x);
        var scores := SupportScores(x, Ranked(Frontier(x), MixedMap(x)), MixedMap(x));
        if scores != [] { ConcludedIff(x, scores, ThresholdBound(x, scores)); }
    }
  }

  lemma NothingEvidenced(x: Context)
    requires Computable(x)
    ensures Rankable(x) == [] ==> Evidenced(x, Rankable(x)) == []
    ensures Evidenced(x, Rankable(x)) == [] ==>
              Frontier(x) == [] && !Conflicting(x, Frontier(x)) && Ranked(Frontier(x), MixedMap(x)) == []
  {
    hide Computable, Rankable;
  }

  /** A selection has the support that PARTIAL_CONSENSUS calls for exactly when the leader does, or when the leader is
      of known feasibility and misses the agreement threshold too. With agreement >= partiality only an UNKNOWN leader
      can be selected below it: UNKNOWN is no cap there but lifts NO_CONSENSUS to a selection. */
  lemma SupportedSelectionIff(strategy: Strategy, x: Context)
    requires Evaluate(strategy, x).Decided?
    ensures var d, leader := Evaluate(strategy, x).decision, Leader(strategy, x);
            && ((d.selected.Some? ==> d.support.Some? && d.support.value >= x.params.partiality)
                <==> (leader.Some? ==>
                        || leader.value.1 >= x.params.partiality
                        || (!Unknown(x, leader.value.0)
                            && !(leader.value.1 >= x.params.agreement && Supportive(x, leader.value.0)))))
            && (x.params.agreement >= x.params.partiality ==>
                  ((d.selected.Some? ==> d.support.Some? && d.support.value >= x.params.partiality)
                   <==> (leader.Some? && Unknown(x, leader.value.0) ==> leader.value.1 >= x.params.partiality)))
  {
    hide Evaluate, Leader, Supportive, StatusOf;
    SelectedIff(strategy, x);
  }

  /** One alternative of UNKNOWN feasibility, opposed by the only position on it, which cites evidence. */
  const DOUBTED := Context(
    [1], [Verdict(1, UNKNOWN)], [Position(5, 1, "OPPOSE", 1.0, [7])], [], [], map[],
    [Citation(7, None, "CROSS_CHECKED", "PRIMARY", "SUPPORT")],
    Params(false, true, 0.66, 0.5, 0.5, 0.4, 0.5, 2, map[], map[], map[], 0.01, 0.05, false))

  lemma DoubtedRankable()
    ensures Rankable(DOUBTED) == [1] && Unknown(DOUBTED, 1)
  {
    var v := DOUBTED.verdicts;
    assert [1][..0] == [] && Feasible([], v) == [] && StatusOf(v, 1) == UNKNOWN;
  }

  lemma DoubtedCitations()
    ensures CountedCitations(DOUBTED.positions[0], DOUBTED.evidence, DOUBTED.params) == DOUBTED.evidence
  {
    var p, e := DOUBTED.positions[0], DOUBTED.evidence;
    assert [7][..0] == [] && Lookup(e, 7) == Some(e[0]);
    assert Cited(p.evidence, e) == [e[0]];
    assert [e[0]][..0] == [] && CountOf([], Publisher(e[0])) == 0;
    assert Capped([e[0]], 2) == [e[0]];
  }

  lemma DoubtedTotals()
    ensures Supporting(DOUBTED.positions[0], DOUBTED.evidence, DOUBTED.params) == 1.0
    ensures Opposing(DOUBTED.positions[0], DOUBTED.evidence, DOUBTED.params) == 0.0
  {
    hide CountedCitations;
    DoubtedCitations();
    var q, e := DOUBTED.params, DOUBTED.evidence;
    assert e[..0] == [] && CitationWeight(e[0], q) == 1.0;
    assert Total(e, "SUPPORT", q) == 1.0 && Total(e, "OPPOSE", q) == 0.0;
  }

  lemma DoubtedEvidence()
    ensures RelevantTo(DOUBTED, 1) == DOUBTED.positions
    ensures EvidenceTotal(DOUBTED, 1) == 1.0 && DivisibleFor(DOUBTED, 1)
  {
    hide Supporting, Opposing;
    DoubtedTotals();
    var ps, q := DOUBTED.positions, DOUBTED.params;
    assert ps[..0] == [] && Relevants([], 1, q) == [] && Relevant(ps[0], 1, q);
  }

  lemma DoubtedSupport()
    requires DivisibleFor(DOUBTED, 1)
    ensures Plain(DOUBTED, 1) == 0.0 && Mixed(DOUBTED, 1) == 0.0
  {
    hide Supporting, Opposing, Max, Clamp, Ratio;
    DoubtedEvidence();
    var p, q, e := DOUBTED.positions[0], DOUBTED.params, DOUBTED.evidence;
    assert DOUBTED.positions == [p] && [p][..0] == [];
    assert PositionScore(p, q) == 0.0;
    assert ScoreSum([], q) == 0.0 && ScoreSum([p], q) == 0.0;
    assert Term(p, e, q) == 0.0;
    assert TermSum([], e, q) == 0.0 && TermSum([p], e, q) == 0.0;
  }

  /** The opposed alternative is selected by every strategy, without any support. */
  lemma UnknownSelectedWithoutSupport(strategy: Strategy)
    ensures Evaluate(strategy, DOUBTED).Decided?
    ensures var d := Evaluate(strategy, DOUBTED).decision;
            && d.selected == Some(1) && d.outcome.CONDITIONAL_CONSENSUS?
            && d.support == Some(0.0) && 0.0 < DOUBTED.params.partiality
  {
    hide Rankable, EvidenceTotal, PlainMap, MixedMap, Computable, Frontier, Evidenced, Supportive, StatusOf, RankMap,
         Ranked;
    DoubtedMaps();
    DoubtedEvidence();
    DoubtedFrontier();
    var x := DOUBTED;
    assert Ranked([1], map[1 := 0.0]) == [1] && Ranked([1], RankMap(x, map[1 := 0.0])) == [1] by {
      RankedOne(map[1 := 0.0]);
      RankedOne(RankMap(x, map[1 := 0.0]));
    }
    assert !Conflicting(x, [1]);
  }

  lemma RankedOne(m: map<Id, real>)
    ensures Ranked([1], m) == [1]
  {
    assert [1][1..] == [];
  }

  lemma DoubtedMaps()
    ensures Rankable(DOUBTED) == [1] && Unknown(DOUBTED, 1) && Computable(DOUBTED)
    ensures PlainMap(DOUBTED) == map[1 := 0.0] && MixedMap(DOUBTED) == map[1 := 0.0]
  {
    hide Plain, Mixed, DivisibleFor, Rankable, EvidenceTotal, RelevantTo, Unknown;
    DoubtedRankable();
    DoubtedEvidence();
    DoubtedSupport();
    assert Computable(DOUBTED);
  }

  lemma DoubtedFrontier()
    ensures Evidenced(DOUBTED, Rankable(DOUBTED)) == [1] && Frontier(DOUBTED) == [1]
  {
    hide Rankable, EvidenceTotal, DivisibleFor;
    DoubtedRankable();
    DoubtedEvidence();
    assert [1][..0] == [] && Evidenced(DOUBTED, []) == [];
    FrontierWithoutObjectives(DOUBTED);
  }

  // ---------------------------------------------------------------- the status of alternatives

  /** Every score keeps the UNKNOWN status of its alternative, as the strategy's design demands, exactly when the
      frontier holds no conflicting objectives or no UNKNOWN alternative: a returned frontier labels all its scores
      SAT. */
  lemma StatusRetainedIff(x: Context)
    requires ConstraintAware(x).Decided?
    ensures var d := ConstraintAware(x).decision;
            (forall i | 0 <= i < |d.scores| :: d.scores[i].unknown == Unknown(x, d.scores[i].alternative))
            <==> (Conflicting(x, Frontier(x)) ==> forall a | a in Frontier(x) :: !Unknown(x, a))
  {
    hide Frontier, Evidenced, MixedMap, Ranked, Computable, Rankable, Classify, StatusOf, Bests;
    var d, f := ConstraintAware(x).decision, Frontier(x);
    if Rankable(x) == [] || Evidenced(x, Rankable(x)) == [] {
      assert Computable(x) by { if Rankable(x) == [] { NothingToRank(x); } }
      NothingEvidenced(x);
    } else if Conflicting(x, f) {
      assert |d.scores| == |f|;
      assert forall i | 0 <= i < |f| :: d.scores[i].alternative == f[i] && !d.scores[i].unknown;
    }
  }

  /** Two alternatives, each best on one of two conflicting objectives; the first is of UNKNOWN feasibility. */
  const TRADE_OFF := Context(
    [1, 2], [Verdict(1, UNKNOWN)], [], [], [Objective(10, 1.0, true), Objective(11, 1.0, false)],
    map[10 := map[1 := 1.0, 2 := 0.0], 11 := map[1 := 0.0, 2 := 1.0]], [],
    Params(false, true, 0.66, 0.5, 0.5, 0.4, 0.5, 2, map[], map[], map[], 0.0, 0.05, true))

  lemma TradeOffRankable()
    ensures Rankable(TRADE_OFF) == [1, 2] && Unknown(TRADE_OFF, 1) && Computable(TRADE_OFF)
    ensures Evidenced(TRADE_OFF, Rankable(TRADE_OFF)) == [1, 2]
  {
    var v := TRADE_OFF.verdicts;
    assert v[..0] == [] && StatusOf([], 2) == SAT;
    assert StatusOf(v, 1) == UNKNOWN && StatusOf(v, 2) == SAT;
    assert [1, 2][..1] == [1] && Feasible([1], v) == [1] && TRADE_OFF.alternatives == [1, 2];
    EverythingAllowed(TRADE_OFF, [1, 2]);
  }

  lemma TradeOffValues()
    ensures ObjectiveIds(TRADE_OFF.objectives) == [10, 11]
    ensures ValuesFor(TRADE_OFF, 1) == map[10 := 1.0, 11 := 0.0] && ValuesFor(TRADE_OFF, 2) == map[10 := 0.0, 11 := 1.0]
  {
    var os := ObjectiveIds(TRADE_OFF.objectives);
    assert os[0] == 10 && os[1] == 11;
  }

  lemma NeitherDominates(a: Values, b: Values)
    requires a == map[10 := 1.0, 11 := 0.0] && b == map[10 := 0.0, 11 := 1.0]
    ensures !Dominates(a, b, [10, 11], 0.0) && !Dominates(b, a, [10, 11], 0.0)
  {
    var os: seq<Id> := [10, 11];
    assert b[os[0]] < a[os[0]] && a[os[1]] < b[os[1]];
  }

  lemma TradeOffFrontier()
    ensures Frontier(TRADE_OFF) == [1, 2]
  {
    hide Evidenced, Rankable, Dominates, ValuesFor, ObjectiveIds;
    TradeOffRankable();
    TradeOffValues();
    var ids := [1, 2];
    var os, table := ObjectiveIds(TRADE_OFF.objectives), ValueTable(TRADE_OFF, ids);
    NeitherDominates(table[1], table[2]);
    assert !Beaten(1, ids, table, os, 0.0) && !Beaten(2, ids, table, os, 0.0);
    assert UndominatedAmong(0, ids, table, os, 0.0) == [];
    assert UndominatedAmong(1, ids, table, os, 0.0) == [1];
  }

  lemma TradeOffConflicts()
    ensures Conflicting(TRADE_OFF, [1, 2])
  {
    var ids, os := [1, 2], TRADE_OFF.objectives;
    assert ids[..1] == [1] && [1][..0] == [] && os[..1] == [os[0]] && [os[0]][..0] == [];
    assert Best(TRADE_OFF, 10, []) == None && Best(TRADE_OFF, 11, []) == None;
    assert Best(TRADE_OFF, 10, [1]) == Some(1) && Best(TRADE_OFF, 11, [1]) == Some(1);
    assert Best(TRADE_OFF, 10, ids) == Some(1) && Best(TRADE_OFF, 11, ids) == Some(2);
    hide Best;
    assert Bests(TRADE_OFF, [os[0]], ids) == {1};
    assert Bests(TRADE_OFF, os, ids) == {1} + {2};
    assert |{1, 2}| == 2 && {1} + {2} == {1, 2};
    assert os[0].conflicting;
  }

  /** The frontier of the trade-off shows its UNKNOWN alternative as SAT. */
  lemma FrontierHidesUnknown()
    ensures ConstraintAware(TRADE_OFF).Decided? && |ConstraintAware(TRADE_OFF).decision.scores| == 2
    ensures var first := ConstraintAware(TRADE_OFF).decision.scores[0];
            Unknown(TRADE_OFF, first.alternative) && !first.unknown
  {
    hide Evidenced, Rankable, Frontier, Conflicting, Computable, MixedMap, Blocking;
    TradeOffRankable();
    TradeOffFrontier();
    TradeOffConflicts();
  }

  // ---------------------------------------------------------------- the flip distance

  /** The supports of the ranked frontier, from the highest down. */
  function RankedSupports(x: Context): (r: seq<real>)
    requires Computable(x)
    ensures |r| == |Ranked(Frontier(x), MixedMap(x))|
  {
    var ids := Ranked(Frontier(x), MixedMap(x));
    seq(|ids|, i requires 0 <= i < |ids| => Unit(At(MixedMap(x), ids[i])))
  }

  /** Raising one support by `delta` puts its alternative before one that was ahead of it. */
  predicate Reorders(supports: seq<real>, delta: real) {
    exists i, j | 0 <= i < j < |supports| :: supports[j] + delta > supports[i]
  }

  /** A perturbation below the distance changes the order. */
  ghost predicate Fragile(supports: seq<real>, distance: real) {
    exists delta | 0.0 <= delta < distance :: Reorders(supports, delta)
  }

  ghost predicate Descending(supports: seq<real>) {
    forall i, j | 0 <= i < j < |supports| :: supports[i] >= supports[j]
  }

  predicate CloseAt(supports: seq<real>, i: nat, distance: real)
    requires i + 1 < |supports|
  {
    supports[i] - supports[i + 1] < distance
  }

  /** The order is fragile exactly when two neighbours are close. */
  lemma FragileIff(supports: seq<real>, distance: real)
    requires Descending(supports)
    ensures Fragile(supports, distance) <==> exists i: nat | i + 1 < |supports| :: CloseAt(supports, i, distance)
  {
    if Fragile(supports, distance) {
      var delta :| 0.0 <= delta < distance && Reorders(supports, delta);
      var i, j :| 0 <= i < j < |supports| && supports[j] + delta > supports[i];
      assert supports[i + 1] >= supports[j];
      assert CloseAt(supports, i, distance);
    }
    if i: nat :| i + 1 < |supports| && CloseAt(supports, i, distance) {
      var gap := supports[i] - supports[i + 1];
      var delta := (gap + distance) / 2.0;
      assert supports[i + 1] + delta > supports[i];
      assert Reorders(supports, delta);
    }
  }

  lemma RankedDescend(x: Context)
    requires Computable(x)
    ensures Descending(RankedSupports(x))
  {
    hide Frontier, MixedMap, Ranked, Sort, Computable;
    var m := MixedMap(x);
    FallingIsPreorder(m);
    RankedIsSort(Frontier(x), m);
    SortSorted(Falling(m), Frontier(x));
    var ids := Ranked(Frontier(x), m);
    forall i, j | 0 <= i < j < |ids| ensures RankedSupports(x)[i] >= RankedSupports(x)[j] {
      assert Falling(m)(ids[i], ids[j]);
    }
  }

  /** A ranking is reported as bound to the threshold exactly when some perturbation below the flip distance changes the
      order, unless the two best are apart and two later neighbours are close: only the two best are compared. */
  lemma FlipDistanceIff(x: Context)
    requires Computable(x) && Leader(CONSTRAINT_AWARE, x).Some? && ConstraintAware(x).Decided?
    ensures var supports, distance := RankedSupports(x), x.params.minFlip;
            (ConstraintAware(x).decision.thresholdBound <==> Fragile(supports, distance))
            <==> || (|supports| >= 2 && CloseAt(supports, 0, distance))
                 || (forall i: nat | 0 < i && i + 1 < |supports| :: !CloseAt(supports, i, distance))
  {
    hide Ranked, MixedMap, Rankable, Frontier, Conflicting, Evidenced, Computable, Fragile, Classify;
    var supports := RankedSupports(x);
    NothingEvidenced(x);
    if Rankable(x) == [] { NothingToRank(x); }
    RankedDescend(x);
    FragileIff(supports, x.params.minFlip);
    var scores := SupportScores(x, Ranked(Frontier(x), MixedMap(x)), MixedMap(x));
    assert forall i | 0 <= i < |scores| :: scores[i].support == supports[i];
    assert ConstraintAware(x).decision.thresholdBound <==> |supports| >= 2 && CloseAt(supports, 0, x.params.minFlip);
  }

  /** One alternative that is supported, and two others that nobody takes a position on. */
  const RUNAWAY := Context(
    [1, 2, 3], [], [Position(5, 1, "SUPPORT", 1.0, [])], [], [], map[], [],
    Params(false, true, 0.66, 0.5, 0.5, 0.4, 0.5, 2, map[], map[], map[], 0.01, 0.05, true))

  lemma {:induction false} NothingInfeasible(ids: seq<Id>)
    ensures Feasible(ids, []) == ids
  {
    if ids != [] { NothingInfeasible(ids[..|ids| - 1]); }
  }

  lemma RunawayRankable()
    ensures Rankable(RUNAWAY) == [1, 2, 3]
  {
    hide Feasible;
    NothingInfeasible([1, 2, 3]);
  }

  lemma RunawayEvidence()
    ensures var p, q := RUNAWAY.positions[0], RUNAWAY.params;
            Supporting(p, [], q) == 0.0 && Opposing(p, [], q) == 0.0
  {
    hide Lookup, CitationWeight;
    var p := RUNAWAY.positions[0];
    assert Cited(p.evidence, []) == [] && Capped([], 2) == [];
  }

  lemma RunawayTerm()
    ensures var p, q := RUNAWAY.positions[0], RUNAWAY.params;
            PositionScore(p, q) == 1.0 && Divisible(p, [], q) && Term(p, [], q) == 1.0
  {
    hide Supporting, Opposing, Clamp;
    RunawayEvidence();
    ClampZero();
  }

  lemma RunawayRelevant(a: Id)
    ensures RelevantTo(RUNAWAY, a) == if a == 1 then RUNAWAY.positions else []
  {
    assert RUNAWAY.positions[..0] == [] && Relevants([], a, RUNAWAY.params) == [];
  }

  lemma RunawaySupport(a: Id)
    ensures DivisibleFor(RUNAWAY, a) && Mixed(RUNAWAY, a) == if a == 1 then 1.0 else 0.0
  {
    hide Divisible, Term, PositionScore, Relevants;
    RunawayTerm();
    RunawayRelevant(a);
    if a == 1 {
      var ps, q := RUNAWAY.positions, RUNAWAY.params;
      assert ps[..0] == [] && ScoreSum(ps, q) == 1.0 && TermSum(ps, [], q) == 1.0;
    }
  }

  lemma ClampZero()
    ensures Clamp(0.0, -1.0, 1.0) == 0.0
  {
  }

  lemma RunawayMap()
    ensures Computable(RUNAWAY) && MixedMap(RUNAWAY) == map[1 := 1.0, 2 := 0.0, 3 := 0.0]
  {
    hide DivisibleFor, Mixed;
    RunawayRankable();
    RunawaySupport(1);
    RunawaySupport(2);
    RunawaySupport(3);
  }

  lemma RunawayFrontier()
    ensures Frontier(RUNAWAY) == [1, 2, 3]
  {
    hide Frontier, Rankable, Evidenced;
    RunawayRankable();
    EverythingAllowed(RUNAWAY, [1, 2, 3]);
    FrontierWithoutObjectives(RUNAWAY);
  }

  lemma RunawayOrder()
    ensures Ranked([1, 2, 3], map[1 := 1.0, 2 := 0.0, 3 := 0.0]) == [1, 2, 3]
  {
    hide Ranked, Sort;
    var m := map[1 := 1.0, 2 := 0.0, 3 := 0.0];
    FallingIsPreorder(m);
    RankedIsSort([1, 2, 3], m);
    SortOfSorted(Falling(m), [1, 2, 3]);
  }

  /** The smallest perturbation reorders the last two, yet the ranking is not reported as bound to the threshold. */
  lemma LaterTieIsMissed()
    ensures Computable(RUNAWAY) && ConstraintAware(RUNAWAY).Decided?
    ensures RankedSupports(RUNAWAY) == [1.0, 0.0, 0.0]
    ensures !ConstraintAware(RUNAWAY).decision.thresholdBound
    ensures Fragile(RankedSupports(RUNAWAY), RUNAWAY.params.minFlip)
  {
    hide Computable, MixedMap, Rankable, Frontier, Evidenced, Ranked, Classify;
    RunawayRankable();
    RunawayMap();
    RunawayFrontier();
    RunawayOrder();
    EverythingAllowed(RUNAWAY, [1, 2, 3]);
    assert !Conflicting(RUNAWAY, [1, 2, 3]);
    var supports := RankedSupports(RUNAWAY);
    RankedDescend(RUNAWAY);
    FragileIff(supports, RUNAWAY.params.minFlip);
    assert CloseAt(supports, 1, RUNAWAY.params.minFlip);
  }

  // ---------------------------------------------------------------- the empty ranking

  /** Two alternatives of equal value on one objective. */
  function Twins(epsilon: real): Context {
    Context([1, 2], [], [], [], [Objective(10, 1.0, false)], map[10 := map[1 := 0.0, 2 := 0.0]], [],
            Params(false, true, 0.66, 0.5, 0.5, 0.4, 0.5, 2, map[], map[], map[], epsilon, 0.05, true))
  }

  lemma TwinsRankable(epsilon: real)
    ensures var x := Twins(epsilon); Rankable(x) == [1, 2] && Computable(x) && Evidenced(x, Rankable(x)) == [1, 2]
  {
    var x := Twins(epsilon);
    hide Feasible;
    NothingInfeasible([1, 2]);
    EverythingAllowed(x, [1, 2]);
  }

  lemma TwinsFrontier(epsilon: real)
    requires epsilon < 0.0
    ensures Frontier(Twins(epsilon)) == []
  {
    hide Evidenced, Rankable;
    var x := Twins(epsilon);
    TwinsRankable(epsilon);
    var ids, os := [1, 2], ObjectiveIds(x.objectives);
    var table := ValueTable(x, ids);
    assert os[0] == 10 && table[1] == map[10 := 0.0] && table[2] == map[10 := 0.0];
    assert Dominates(table[1], table[2], os, epsilon);
    hide Dominates;
    assert Beats(ids[0], 2, table, os, epsilon) && Beats(ids[1], 1, table, os, epsilon);
    assert UndominatedAmong(0, ids, table, os, epsilon) == [];
    assert UndominatedAmong(1, ids, table, os, epsilon) == [];
  }

  /** Constraint-aware evaluation never indexes an empty ranking, whatever the input, exactly when epsilon is not
      negative. */
  lemma NeverEmptyRankingIff(epsilon: real)
    ensures (forall x: Context | x.params.epsilon == epsilon :: ConstraintAware(x) != EmptyRanking) <==> epsilon >= 0.0
  {
    hide ConstraintAware;
    if epsilon >= 0.0 {
      forall x: Context | x.params.epsilon == epsilon ensures ConstraintAware(x) != EmptyRanking {
        NeverEmptyRanking(x);
      }
    } else {
      EmptyOnTwins(epsilon);
    }
  }

  lemma EmptyOnTwins(epsilon: real)
    requires epsilon < 0.0
    ensures ConstraintAware(Twins(epsilon)) == EmptyRanking
  {
    hide Evidenced, Rankable, Frontier, Computable;
    var x := Twins(epsilon);
    TwinsRankable(epsilon);
    TwinsFrontier(epsilon);
    assert !Conflicting(x, []);
    RankedLength([], MixedMap(x));
  }
}
