/** Support and evidence of an alternative, over exact reals. */
module ConsensusEvidence {
  import opened Options

  type Id = nat

  datatype Position = Position(agent: Id, alternative: Id, stance: string, confidence: real, evidence: seq<Id>)

  datatype Citation = Citation(id: Id, publisher: Option<string>, verification: string, trust: string, polarity: string)

  /** Parameters of the strategies; an empty table stands for the built-in one. */
  datatype Params = Params(
    useConfidence: bool, excludeAbstain: bool, agreement: real, partiality: real, alpha: real, beta: real, lambda: real,
    cap: int, positionWeights: map<string, real>, verificationWeights: map<string, real>, trust: map<string, real>,
    epsilon: real, minFlip: real, allowUnevidenced: bool)

  const POSITION_WEIGHTS := map["SUPPORT" := 1.0, "CONDITIONALLY_SUPPORT" := 0.75, "INSUFFICIENT_EVIDENCE" := 0.25,
                                "OPPOSE" := 0.0, "ABSTAIN" := 0.5]
  const VERIFICATION_WEIGHTS := map["UNVERIFIED" := 0.3, "SOURCE_VERIFIED" := 0.8, "CROSS_CHECKED" := 1.0,
                                    "DISPUTED" := 0.1, "REJECTED" := 0.0]
  const TRUST_MULTIPLIER := map["PRIMARY" := 1.0, "AUTHORITATIVE" := 0.9, "SECONDARY" := 0.6, "COMMERCIAL" := 0.4,
                                "UNATTRIBUTED" := 0.0, "SYNTHETIC" := 0.0]

  function Get(m: map<string, real>, key: string, default: real): real { if key in m then m[key] else default }
  function OrElse(m: map<string, real>, default: map<string, real>): map<string, real> {
    if m == map[] then default else m
  }

  function Max(a: real, b: real): real { if a >= b then a else b }
  function Min(a: real, b: real): real { if a <= b then a else b }
  function Clamp(v: real, low: real, high: real): real { Max(low, Min(high, v)) }

  function PositionScore(p: Position, q: Params): real {
    var w := Get(OrElse(q.positionWeights, POSITION_WEIGHTS), p.stance, 0.5);
    if q.useConfidence then w * p.confidence else w
  }

  // ---------------------------------------------------------------- evidence of one position

  /** Later citations of the same identity win. */
  function Lookup(evidence: seq<Citation>, id: Id): Option<Citation> {
    if evidence == [] then None
    else if evidence[|evidence| - 1].id == id then Some(evidence[|evidence| - 1])
    else Lookup(evidence[..|evidence| - 1], id)
  }

  function Cited(ids: seq<Id>, evidence: seq<Citation>): seq<Citation> {
    if ids == [] then []
    else
      var n := |ids| - 1;
      var c := Lookup(evidence, ids[n]);
      Cited(ids[..n], evidence) + if c.Some? then [c.value] else []
  }

  function Publisher(c: Citation): string { if c.publisher.Some? then c.publisher.value else "" }

  function CountOf(cs: seq<Citation>, publisher: string): nat {
    if cs == [] then 0
    else CountOf(cs[..|cs| - 1], publisher) + if Publisher(cs[|cs| - 1]) == publisher then 1 else 0
  }

  /** At most `cap` citations of one publisher count, the first ones. */
  function Capped(cs: seq<Citation>, cap: int): seq<Citation> {
    if cs == [] then []
    else
      var n := |cs| - 1;
      Capped(cs[..n], cap) + if CountOf(cs, Publisher(cs[n])) <= cap then [cs[n]] else []
  }

  function CitationWeight(c: Citation, q: Params): real {
    Get(OrElse(q.verificationWeights, VERIFICATION_WEIGHTS), c.verification, 0.0)
    * Get(OrElse(q.trust, TRUST_MULTIPLIER), c.trust, 0.0)
  }

  /** The total weight of the citations with one polarity; rejected ones never count. */
  function Total(cs: seq<Citation>, polarity: string, q: Params): real {
    if cs == [] then 0.0
    else
      var c := cs[|cs| - 1];
      Total(cs[..|cs| - 1], polarity, q)
      + if c.verification != "REJECTED" && c.polarity == polarity then CitationWeight(c, q) else 0.0
  }

  function CountedCitations(p: Position, evidence: seq<Citation>, q: Params): seq<Citation> {
    Capped(Cited(p.evidence, evidence), q.cap)
  }

  function Supporting(p: Position, evidence: seq<Citation>, q: Params): real {
    Total(CountedCitations(p, evidence, q), "SUPPORT", q)
  }

  function Opposing(p: Position, evidence: seq<Citation>, q: Params): real {
    Total(CountedCitations(p, evidence, q), "OPPOSE", q)
  }

  /** The division of the evidence ratio is defined. */
  predicate Divisible(p: Position, evidence: seq<Citation>, q: Params) {
    Supporting(p, evidence, q) + Opposing(p, evidence, q) + 1.0 != 0.0
  }

  function Ratio(e: real, d: real): real
    requires e + d + 1.0 != 0.0
  {
    (e - d) / (e + d + 1.0)
  }

  /** A position score raised by the share of evidence in its favour. */
  function Raised(score: real, lambda: real, e: real, d: real): real
    requires e + d + 1.0 != 0.0
  {
    score * (1.0 + lambda * Max(0.0, Clamp(Ratio(e, d), -1.0, 1.0)))
  }

  function Term(p: Position, evidence: seq<Citation>, q: Params): real
    requires Divisible(p, evidence, q)
  {
    Raised(PositionScore(p, q), q.lambda, Supporting(p, evidence, q), Opposing(p, evidence, q))
  }

  // ---------------------------------------------------------------- support of an alternative

  predicate Relevant(p: Position, alternative: Id, q: Params) {
    p.alternative == alternative && !(q.excludeAbstain && p.stance == "ABSTAIN")
  }

  function Relevants(ps: seq<Position>, alternative: Id, q: Params): seq<Position> {
    if ps == [] then []
    else
      var n := |ps| - 1;
      Relevants(ps[..n], alternative, q) + if Relevant(ps[n], alternative, q) then [ps[n]] else []
  }

  function ScoreSum(ps: seq<Position>, q: Params): real {
    if ps == [] then 0.0 else ScoreSum(ps[..|ps| - 1], q) + PositionScore(ps[|ps| - 1], q)
  }

  predicate AllDivisible(ps: seq<Position>, evidence: seq<Citation>, q: Params) {
    forall i | 0 <= i < |ps| :: Divisible(ps[i], evidence, q)
  }

  function TermSum(ps: seq<Position>, evidence: seq<Citation>, q: Params): real
    requires AllDivisible(ps, evidence, q)
  {
    if ps == [] then 0.0 else TermSum(ps[..|ps| - 1], evidence, q) + Term(ps[|ps| - 1], evidence, q)
  }

  function EvidenceSum(ps: seq<Position>, evidence: seq<Citation>, q: Params): real {
    if ps == [] then 0.0 else EvidenceSum(ps[..|ps| - 1], evidence, q) + Supporting(ps[|ps| - 1], evidence, q)
  }

  /** Mean position score of the relevant positions; 0 without any. */
  function PlainSupport(rs: seq<Position>, q: Params): real {
    if rs == [] then 0.0 else ScoreSum(rs, q) / |rs| as real
  }

  function EvidenceSupport(rs: seq<Position>, evidence: seq<Citation>, q: Params): real
    requires AllDivisible(rs, evidence, q)
  {
    if rs == [] then 0.0 else Min(1.0, TermSum(rs, evidence, q) / |rs| as real)
  }

  function Blend(beta: real, plain: real, withEvidence: real): real {
    (1.0 - beta) * plain + beta * withEvidence
  }

  function Blended(rs: seq<Position>, evidence: seq<Citation>, q: Params): real
    requires AllDivisible(rs, evidence, q)
  {
    Blend(q.beta, PlainSupport(rs, q), EvidenceSupport(rs, evidence, q))
  }

  // ---------------------------------------------------------------- the loops

  /** Counts publishers as the citations go by. */
  method CapByPublisher(cs: seq<Citation>, cap: int) returns (kept: seq<Citation>)
    ensures kept == Capped(cs, cap)
  {
    var counts: map<string, nat> := map[];
    kept := [];
    var i := 0;
    while i < |cs|
      invariant 0 <= i <= |cs| && kept == Capped(cs[..i], cap)
      invariant forall k :: (if k in counts then counts[k] else 0) == CountOf(cs[..i], k)
    {
      assert cs[..i + 1][..i] == cs[..i];
      var key := Publisher(cs[i]);
      counts := counts[key := (if key in counts then counts[key] else 0) + 1];
      if counts[key] <= cap { kept := kept + [cs[i]]; }
      i := i + 1;
    }
    assert cs[..i] == cs;
  }

  method EvidenceStrength(p: Position, evidence: seq<Citation>, q: Params) returns (e: real, d: real)
    ensures e == Supporting(p, evidence, q) && d == Opposing(p, evidence, q)
  {
    var cs := CapByPublisher(Cited(p.evidence, evidence), q.cap);
    e, d := 0.0, 0.0;
    var i := 0;
    while i < |cs|
      invariant 0 <= i <= |cs| && e == Total(cs[..i], "SUPPORT", q) && d == Total(cs[..i], "OPPOSE", q)
    {
      assert cs[..i + 1][..i] == cs[..i];
      if cs[i].verification != "REJECTED" {
        var w := CitationWeight(cs[i], q);
        if cs[i].polarity == "SUPPORT" { e := e + w; }
        else if cs[i].polarity == "OPPOSE" { d := d + w; }
      }
      i := i + 1;
    }
    assert cs[..i] == cs;
  }

  /** The supporting evidence of a position and its term in the evidence-weighted sum. */
  method WeightedTerm(p: Position, evidence: seq<Citation>, q: Params) returns (r: Option<(real, real)>)
    ensures r.Some? <==> Divisible(p, evidence, q)
    ensures r.Some? ==> r.value == (Supporting(p, evidence, q), Term(p, evidence, q))
  {
    hide Supporting, Opposing, PositionScore, Raised;
    var e, d := EvidenceStrength(p, evidence, q);
    if e + d + 1.0 == 0.0 { return None; }
    return Some((e, Raised(PositionScore(p, q), q.lambda, e, d)));
  }

  /** The evidence total and the blended support of one alternative; no value when a ratio divides by zero. */
  method SupportOf(rs: seq<Position>, evidence: seq<Citation>, q: Params) returns (r: Option<(real, real)>)
    ensures r.Some? <==> AllDivisible(rs, evidence, q)
    ensures r.Some? ==> r.value == (EvidenceSum(rs, evidence, q), Blended(rs, evidence, q))
  {
    hide Supporting, Term, Divisible, PositionScore, Blend;
    var total, terms, scores := 0.0, 0.0, 0.0;
    var i := 0;
    while i < |rs|
      invariant 0 <= i <= |rs| && AllDivisible(rs[..i], evidence, q)
      invariant total == EvidenceSum(rs[..i], evidence, q) && terms == TermSum(rs[..i], evidence, q)
      invariant scores == ScoreSum(rs[..i], q)
    {
      assert rs[..i + 1][..i] == rs[..i];
      var term := WeightedTerm(rs[i], evidence, q);
      if term.None? { return None; }
      total, terms, scores := total + term.value.0, terms + term.value.1, scores + PositionScore(rs[i], q);
      i := i + 1;
    }
    assert rs[..i] == rs;
    var supportEv := if rs == [] then 0.0 else Min(1.0, terms / |rs| as real);
    var supportWeighted := if rs == [] then 0.0 else scores / |rs| as real;
    return Some((total, Blend(q.beta, supportWeighted, supportEv)));
  }

  // ---------------------------------------------------------------- sane parameters

  ghost predicate NonNegative(m: map<string, real>) { forall k | k in m :: m[k] >= 0.0 }

  /** Weights and lambda are not negative, and beta is a fraction. */
  ghost predicate Sane(q: Params) {
    NonNegative(q.verificationWeights) && NonNegative(q.trust) && q.lambda >= 0.0 && 0.0 <= q.beta <= 1.0
  }

  lemma WeightNonNegative(c: Citation, q: Params)
    requires NonNegative(q.verificationWeights) && NonNegative(q.trust)
    ensures CitationWeight(c, q) >= 0.0
  {
    var v := Get(OrElse(q.verificationWeights, VERIFICATION_WEIGHTS), c.verification, 0.0);
    var t := Get(OrElse(q.trust, TRUST_MULTIPLIER), c.trust, 0.0);
    assert v >= 0.0 && t >= 0.0;
    assert v * t >= 0.0;
  }

  lemma {:induction false} TotalNonNegative(cs: seq<Citation>, polarity: string, q: Params)
    requires NonNegative(q.verificationWeights) && NonNegative(q.trust)
    ensures Total(cs, polarity, q) >= 0.0
  {
    if cs != [] {
      TotalNonNegative(cs[..|cs| - 1], polarity, q);
      WeightNonNegative(cs[|cs| - 1], q);
    }
  }

  lemma SaneIsDivisible(ps: seq<Position>, evidence: seq<Citation>, q: Params)
    requires Sane(q)
    ensures AllDivisible(ps, evidence, q)
  {
    forall i | 0 <= i < |ps| ensures Divisible(ps[i], evidence, q) {
      TotalNonNegative(CountedCitations(ps[i], evidence, q), "SUPPORT", q);
      TotalNonNegative(CountedCitations(ps[i], evidence, q), "OPPOSE", q);
    }
  }

  // ---------------------------------------------------------------- more evidence

  /** The ratio rises with supporting and falls with opposing evidence, and lies strictly between -1 and 1. */
  lemma RatioMonotone(e: real, d: real, more: real)
    requires e >= 0.0 && d >= 0.0 && more >= 0.0
    ensures Ratio(e + more, d) >= Ratio(e, d) && Ratio(e, d + more) <= Ratio(e, d)
    ensures -1.0 < Ratio(e, d) < 1.0
  {
    Quotient(e, d, e + d + 1.0, e - d);
    CrossMultiply(e - d, e + d + 1.0, e + more - d, e + more + d + 1.0, more * (2.0 * d + 1.0));
    CrossMultiply(e - d - more, e + d + more + 1.0, e - d, e + d + 1.0, more * (2.0 * e + 1.0));
  }

  lemma Scale(k: real, x: real, y: real)
    requires k >= 0.0 && x <= y
    ensures k * x <= k * y
  {
  }

  lemma NegativeProduct(a: real, m: real)
    requires a < 0.0 < m
    ensures a * m < 0.0
  {
  }

  lemma FactorSign(a: real, m: real)
    requires m > 0.0
    ensures (a * m >= 0.0 ==> a >= 0.0) && (a * m > 0.0 ==> a > 0.0)
  {
    if a < 0.0 { NegativeProduct(a, m); }
  }

  lemma Quotient(e: real, d: real, den: real, num: real)
    requires e >= 0.0 && d >= 0.0 && den == e + d + 1.0 && num == e - d
    ensures -1.0 < num / den < 1.0
  {
    var y := num / den;
    assert y * den == num;
    assert (1.0 - y) * den == den - num && (y + 1.0) * den == num + den;
    FactorSign(1.0 - y, den);
    FactorSign(y + 1.0, den);
  }

  lemma CrossMultiply(a: real, b: real, c: real, d: real, gap: real)
    requires b > 0.0 && d > 0.0 && c * b - a * d == gap && gap >= 0.0
    ensures a / b <= c / d
  {
    var x, y := a / b, c / d;
    assert x * b == a && y * d == c;
    assert (y - x) * (b * d) == c * b - a * d;
    FactorSign(y - x, b * d);
  }

  /** The clamp to [-1, 1] never changes an evidence ratio. */
  lemma ClampNeverBites(p: Position, evidence: seq<Citation>, q: Params)
    requires Sane(q)
    ensures Divisible(p, evidence, q)
    ensures var r := Ratio(Supporting(p, evidence, q), Opposing(p, evidence, q)); Clamp(r, -1.0, 1.0) == r
  {
    TotalNonNegative(CountedCitations(p, evidence, q), "SUPPORT", q);
    TotalNonNegative(CountedCitations(p, evidence, q), "OPPOSE", q);
    RatioMonotone(Supporting(p, evidence, q), Opposing(p, evidence, q), 0.0);
  }

  function Cite(p: Position, id: Id): Position { p.(evidence := p.evidence + [id]) }

  /** One more citation adds its weight to its own side, or nothing when it is capped or rejected. */
  lemma OneMoreCitation(p: Position, id: Id, evidence: seq<Citation>, q: Params)
    requires NonNegative(q.verificationWeights) && NonNegative(q.trust)
    requires Lookup(evidence, id).Some?
    ensures var polarity := Lookup(evidence, id).value.polarity;
            var more, e, d := Cite(p, id), Supporting(p, evidence, q), Opposing(p, evidence, q);
            && (polarity == "SUPPORT" ==> Supporting(more, evidence, q) >= e && Opposing(more, evidence, q) == d)
            && (polarity == "OPPOSE" ==> Supporting(more, evidence, q) == e && Opposing(more, evidence, q) >= d)
  {
    var c := Lookup(evidence, id).value;
    WeightNonNegative(c, q);
    assert Cite(p, id).evidence[..|p.evidence|] == p.evidence;
    var cs := Cited(p.evidence, evidence);
    assert Cited(Cite(p, id).evidence, evidence) == cs + [c];
    assert (cs + [c])[..|cs|] == cs;
    var kept := Capped(cs, q.cap);
    assert Capped(cs + [c], q.cap) == kept || Capped(cs + [c], q.cap) == kept + [c];
    assert (kept + [c])[..|kept|] == kept;
  }

  /** What a citation of `polarity` does to a term of the evidence-weighted sum. */
  lemma TermMonotone(p: Position, id: Id, evidence: seq<Citation>, q: Params)
    requires Sane(q) && PositionScore(p, q) >= 0.0 && Lookup(evidence, id).Some?
    ensures Divisible(p, evidence, q) && Divisible(Cite(p, id), evidence, q)
    ensures Lookup(evidence, id).value.polarity == "SUPPORT" ==>
              Term(Cite(p, id), evidence, q) >= Term(p, evidence, q)
              && Supporting(Cite(p, id), evidence, q) >= Supporting(p, evidence, q)
    ensures Lookup(evidence, id).value.polarity == "OPPOSE" ==>
              Term(Cite(p, id), evidence, q) <= Term(p, evidence, q)
              && Supporting(Cite(p, id), evidence, q) == Supporting(p, evidence, q)
  {
    hide Supporting, Opposing, Lookup, PositionScore, Raised;
    var more := Cite(p, id);
    ScoreOfCite(p, id, q);
    SidesNonNegative(p, evidence, q);
    SidesNonNegative(more, evidence, q);
    OneMoreCitation(p, id, evidence, q);
    var e, d := Supporting(p, evidence, q), Opposing(p, evidence, q);
    var e', d' := Supporting(more, evidence, q), Opposing(more, evidence, q);
    if Lookup(evidence, id).value.polarity == "SUPPORT" {
      RaisedMonotone(PositionScore(p, q), q.lambda, e, d, e' - e);
    } else if Lookup(evidence, id).value.polarity == "OPPOSE" {
      RaisedMonotone(PositionScore(p, q), q.lambda, e, d, d' - d);
    }
  }

  lemma RaisedMonotone(score: real, lambda: real, e: real, d: real, more: real)
    requires score >= 0.0 && lambda >= 0.0 && e >= 0.0 && d >= 0.0 && more >= 0.0
    ensures Raised(score, lambda, e + more, d) >= Raised(score, lambda, e, d)
    ensures Raised(score, lambda, e, d + more) <= Raised(score, lambda, e, d)
  {
    hide Ratio;
    RatioMonotone(e, d, more);
    RatioMonotone(e + more, d, 0.0);
    RatioMonotone(e, d + more, 0.0);
    FactorMonotone(score, lambda, Ratio(e, d), Ratio(e + more, d));
    FactorMonotone(score, lambda, Ratio(e, d + more), Ratio(e, d));
  }

  lemma ScoreOfCite(p: Position, id: Id, q: Params)
    ensures PositionScore(Cite(p, id), q) == PositionScore(p, q)
  {
  }

  lemma SidesNonNegative(p: Position, evidence: seq<Citation>, q: Params)
    requires Sane(q)
    ensures Supporting(p, evidence, q) >= 0.0 && Opposing(p, evidence, q) >= 0.0
  {
    TotalNonNegative(CountedCitations(p, evidence, q), "SUPPORT", q);
    TotalNonNegative(CountedCitations(p, evidence, q), "OPPOSE", q);
  }

  lemma FactorMonotone(base: real, lambda: real, x: real, y: real)
    requires base >= 0.0 && lambda >= 0.0 && x <= y
    ensures base * (1.0 + lambda * Max(0.0, x)) <= base * (1.0 + lambda * Max(0.0, y))
  {
    var a, b := Max(0.0, x), Max(0.0, y);
    assert lambda * a <= lambda * b;
    Scale(base, 1.0 + lambda * a, 1.0 + lambda * b);
  }

  /** Two lists of positions that agree except that, at one place, one more citation is appended. */
  ghost predicate CitesMore(ps: seq<Position>, ps': seq<Position>, k: nat, id: Id) {
    k < |ps| == |ps'| && ps' == ps[k := Cite(ps[k], id)]
  }

  lemma {:induction false} SumsMonotone(
    ps: seq<Position>, ps': seq<Position>, k: nat, id: Id, evidence: seq<Citation>, q: Params)
    requires CitesMore(ps, ps', k, id) && Sane(q) && PositionScore(ps[k], q) >= 0.0 && Lookup(evidence, id).Some?
    ensures AllDivisible(ps, evidence, q) && AllDivisible(ps', evidence, q)
    ensures ScoreSum(ps', q) == ScoreSum(ps, q)
    ensures Lookup(evidence, id).value.polarity == "SUPPORT" ==>
              TermSum(ps', evidence, q) >= TermSum(ps, evidence, q)
              && EvidenceSum(ps', evidence, q) >= EvidenceSum(ps, evidence, q)
    ensures Lookup(evidence, id).value.polarity == "OPPOSE" ==>
              TermSum(ps', evidence, q) <= TermSum(ps, evidence, q)
              && EvidenceSum(ps', evidence, q) == EvidenceSum(ps, evidence, q)
  {
    hide Supporting, Term, PositionScore, Divisible, Lookup;
    SaneIsDivisible(ps, evidence, q);
    SaneIsDivisible(ps', evidence, q);
    var n := |ps| - 1;
    TermMonotone(ps[k], id, evidence, q);
    ScoreOfCite(ps[k], id, q);
    if k < n {
      SumsMonotone(ps[..n], ps'[..n], k, id, evidence, q);
    } else {
      assert ps'[..n] == ps[..n];
    }
  }

  lemma BlendMonotone(plain: real, beta: real, x: real, y: real)
    requires 0.0 <= beta && x <= y
    ensures Blend(beta, plain, x) <= Blend(beta, plain, y)
  {
    Scale(beta, x, y);
  }

  lemma MeanMonotone(x: real, y: real, n: nat)
    requires n > 0 && x <= y
    ensures Min(1.0, x / n as real) <= Min(1.0, y / n as real)
  {
    var m := n as real;
    assert x / m * m == x && y / m * m == y;
    FactorSign(y / m - x / m, m);
  }

  /** Appending a SUPPORT citation to one position never lowers the alternative's blended support nor its evidence
      total; appending an OPPOSE citation never raises the support and leaves the evidence total alone. */
  lemma MoreEvidence(rs: seq<Position>, rs': seq<Position>, k: nat, id: Id, evidence: seq<Citation>, q: Params)
    requires CitesMore(rs, rs', k, id) && Sane(q) && PositionScore(rs[k], q) >= 0.0 && Lookup(evidence, id).Some?
    ensures AllDivisible(rs, evidence, q) && AllDivisible(rs', evidence, q)
    ensures Lookup(evidence, id).value.polarity == "SUPPORT" ==>
              Blended(rs', evidence, q) >= Blended(rs, evidence, q)
              && EvidenceSum(rs', evidence, q) >= EvidenceSum(rs, evidence, q)
    ensures Lookup(evidence, id).value.polarity == "OPPOSE" ==>
              Blended(rs', evidence, q) <= Blended(rs, evidence, q)
              && EvidenceSum(rs', evidence, q) == EvidenceSum(rs, evidence, q)
  {
    hide Term, PositionScore, Supporting, Lookup, Min, AllDivisible, TermSum, ScoreSum, EvidenceSum, Blend;
    SumsMonotone(rs, rs', k, id, evidence, q);
    var x, y := TermSum(rs, evidence, q), TermSum(rs', evidence, q);
    if Lookup(evidence, id).value.polarity == "SUPPORT" {
      MeanMonotone(x, y, |rs|);
      BlendMonotone(PlainSupport(rs, q), q.beta, EvidenceSupport(rs, evidence, q), EvidenceSupport(rs', evidence, q));
    } else if Lookup(evidence, id).value.polarity == "OPPOSE" {
      MeanMonotone(y, x, |rs|);
      BlendMonotone(PlainSupport(rs, q), q.beta, EvidenceSupport(rs', evidence, q), EvidenceSupport(rs, evidence, q));
    }
  }

  /** Citing more changes neither which positions are relevant to an alternative nor their order. */
  lemma {:induction false} RelevantsAfterCite(
    ps: seq<Position>, k: nat, id: Id, alternative: Id, q: Params) returns (j: nat)
    requires k < |ps|
    ensures var rs, rs' := Relevants(ps, alternative, q), Relevants(ps[k := Cite(ps[k], id)], alternative, q);
            if Relevant(ps[k], alternative, q) then CitesMore(rs, rs', j, id) && rs[j] == ps[k] else rs' == rs
  {
    var n := |ps| - 1;
    var ps' := ps[k := Cite(ps[k], id)];
    if k == n {
      assert ps'[..n] == ps[..n];
      j := |Relevants(ps[..n], alternative, q)|;
    } else {
      assert ps'[..n] == ps[..n][k := Cite(ps[k], id)];
      j := RelevantsAfterCite(ps[..n], k, id, alternative, q);
    }
  }

  /** Over all the positions of a session: one more SUPPORT citation on any of them lowers no alternative's support
      and no evidence total, and one more OPPOSE citation raises no alternative's support. */
  lemma MoreEvidenceInSession(
    ps: seq<Position>, k: nat, id: Id, alternative: Id, evidence: seq<Citation>, q: Params)
    requires k < |ps| && Sane(q) && PositionScore(ps[k], q) >= 0.0 && Lookup(evidence, id).Some?
    ensures var rs, rs' := Relevants(ps, alternative, q), Relevants(ps[k := Cite(ps[k], id)], alternative, q);
            && AllDivisible(rs, evidence, q) && AllDivisible(rs', evidence, q)
            && (Lookup(evidence, id).value.polarity == "SUPPORT" ==>
                  Blended(rs', evidence, q) >= Blended(rs, evidence, q)
                  && EvidenceSum(rs', evidence, q) >= EvidenceSum(rs, evidence, q))
            && (Lookup(evidence, id).value.polarity == "OPPOSE" ==>
                  Blended(rs', evidence, q) <= Blended(rs, evidence, q))
  {
    hide Lookup, PositionScore, Blended, EvidenceSum, AllDivisible, Relevant, Relevants;
    var rs, rs' := Relevants(ps, alternative, q), Relevants(ps[k := Cite(ps[k], id)], alternative, q);
    SaneIsDivisible(rs, evidence, q);
    SaneIsDivisible(rs', evidence, q);
    var j := RelevantsAfterCite(ps, k, id, alternative, q);
    if Relevant(ps[k], alternative, q) { MoreEvidence(rs, rs', j, id, evidence, q); }
  }

  // ---------------------------------------------------------------- bounds

  ghost predicate UnitScores(ps: seq<Position>, q: Params) {
    forall i | 0 <= i < |ps| :: 0.0 <= PositionScore(ps[i], q) <= 1.0
  }

  lemma {:induction false} ScoreSumBounds(ps: seq<Position>, q: Params)
    requires UnitScores(ps, q)
    ensures 0.0 <= ScoreSum(ps, q) <= |ps| as real
  {
    hide PositionScore;
    if ps != [] { ScoreSumBounds(ps[..|ps| - 1], q); }
  }

  lemma TermNonNegative(p: Position, evidence: seq<Citation>, q: Params)
    requires q.lambda >= 0.0 && PositionScore(p, q) >= 0.0 && Divisible(p, evidence, q)
    ensures Term(p, evidence, q) >= 0.0
  {
    hide PositionScore, Supporting, Opposing;
    var m := Max(0.0, Clamp(Ratio(Supporting(p, evidence, q), Opposing(p, evidence, q)), -1.0, 1.0));
    assert q.lambda * m >= 0.0;
    assert PositionScore(p, q) * (1.0 + q.lambda * m) >= 0.0;
  }

  lemma {:induction false} TermSumNonNegative(ps: seq<Position>, evidence: seq<Citation>, q: Params)
    requires q.lambda >= 0.0 && UnitScores(ps, q) && AllDivisible(ps, evidence, q)
    ensures TermSum(ps, evidence, q) >= 0.0
  {
    hide PositionScore, Term, Divisible;
    if ps != [] {
      TermSumNonNegative(ps[..|ps| - 1], evidence, q);
      TermNonNegative(ps[|ps| - 1], evidence, q);
    }
  }

  lemma MeanBounds(x: real, n: nat)
    requires n > 0 && 0.0 <= x
    ensures 0.0 <= x / n as real && (x <= n as real ==> x / n as real <= 1.0)
  {
    var m := n as real;
    assert x / m * m == x;
    FactorSign(x / m, m);
    FactorSign(1.0 - x / m, m);
  }

  /** With position scores in [0, 1] the blended support is in [0, 1]. */
  lemma BlendedBounds(rs: seq<Position>, evidence: seq<Citation>, q: Params)
    requires q.lambda >= 0.0 && 0.0 <= q.beta <= 1.0 && UnitScores(rs, q) && AllDivisible(rs, evidence, q)
    ensures 0.0 <= PlainSupport(rs, q) <= 1.0 && 0.0 <= EvidenceSupport(rs, evidence, q) <= 1.0
    ensures 0.0 <= Blended(rs, evidence, q) <= 1.0
  {
    hide PositionScore, Term, Divisible, TermSum, ScoreSum, UnitScores, AllDivisible;
    if rs != [] {
      ScoreSumBounds(rs, q);
      TermSumNonNegative(rs, evidence, q);
      MeanBounds(ScoreSum(rs, q), |rs|);
      MeanBounds(TermSum(rs, evidence, q), |rs|);
    }
    ConvexBounds(1.0 - q.beta, q.beta, PlainSupport(rs, q), EvidenceSupport(rs, evidence, q));
  }

  lemma ConvexBounds(a: real, b: real, x: real, y: real)
    requires a >= 0.0 && b >= 0.0 && a + b == 1.0 && 0.0 <= x <= 1.0 && 0.0 <= y <= 1.0
    ensures 0.0 <= a * x + b * y <= 1.0
  {
    Fraction(a, x);
    Fraction(b, y);
    AddBounds(a * x, b * y, a, b);
  }

  lemma AddBounds(u: real, v: real, a: real, b: real)
    requires 0.0 <= u <= a && 0.0 <= v <= b && a + b == 1.0
    ensures 0.0 <= u + v <= 1.0
  {
  }

  lemma Fraction(k: real, x: real)
    requires k >= 0.0 && 0.0 <= x <= 1.0
    ensures 0.0 <= k * x <= k
  {
  }

  // ---------------------------------------------------------------- without lambda

  lemma {:induction false} TermSumWithoutLambda(ps: seq<Position>, evidence: seq<Citation>, q: Params)
    requires q.lambda == 0.0 && AllDivisible(ps, evidence, q)
    ensures TermSum(ps, evidence, q) == ScoreSum(ps, q)
  {
    hide PositionScore, Supporting, Opposing, Divisible;
    if ps != [] {
      TermSumWithoutLambda(ps[..|ps| - 1], evidence, q);
      TermWithoutLambda(ps[|ps| - 1], evidence, q);
    }
  }

  lemma TermWithoutLambda(p: Position, evidence: seq<Citation>, q: Params)
    requires q.lambda == 0.0 && Divisible(p, evidence, q)
    ensures Term(p, evidence, q) == PositionScore(p, q)
  {
    hide PositionScore, Supporting, Opposing;
  }

  /** With lambda = 0 and scores in [0, 1], evidence does not change the support at all. */
  lemma BlendedWithoutLambda(rs: seq<Position>, evidence: seq<Citation>, q: Params)
    requires q.lambda == 0.0 && UnitScores(rs, q) && AllDivisible(rs, evidence, q)
    ensures Blended(rs, evidence, q) == PlainSupport(rs, q)
    ensures 0.0 <= PlainSupport(rs, q) <= 1.0
  {
    hide PositionScore, Term, Divisible, TermSum, ScoreSum, UnitScores, AllDivisible;
    TermSumWithoutLambda(rs, evidence, q);
    if rs != [] {
      ScoreSumBounds(rs, q);
      MeanBounds(ScoreSum(rs, q), |rs|);
    }
    assert EvidenceSupport(rs, evidence, q) == PlainSupport(rs, q);
    var p := PlainSupport(rs, q);
    assert (1.0 - q.beta) * p + q.beta * p == p;
  }
}
