/** Epsilon-dominance between alternatives and the set it leaves. */
module ConsensusDominance {
  import opened ConsensusEvidence

  type Values = map<Id, real>

  /** At least as good on every objective, and better by more than epsilon on one; a missing value never dominates. */
  predicate Dominates(a: Values, b: Values, objectives: seq<Id>, epsilon: real) {
    && (forall i | 0 <= i < |objectives| ::
          objectives[i] in a && objectives[i] in b && a[objectives[i]] >= b[objectives[i]])
    && exists i | 0 <= i < |objectives| ::
         objectives[i] in a && objectives[i] in b && a[objectives[i]] > b[objectives[i]] + epsilon
  }

  function ValuesOf(values: map<Id, Values>, a: Id): Values { if a in values then values[a] else map[] }

  predicate Beats(b: Id, a: Id, values: map<Id, Values>, objectives: seq<Id>, epsilon: real) {
    b != a && Dominates(ValuesOf(values, b), ValuesOf(values, a), objectives, epsilon)
  }

  predicate Beaten(a: Id, alternatives: seq<Id>, values: map<Id, Values>, objectives: seq<Id>, epsilon: real) {
    exists i | 0 <= i < |alternatives| :: Beats(alternatives[i], a, values, objectives, epsilon)
  }

  /** The alternatives among the first `n` that no alternative dominates, in order. */
  function UndominatedAmong(
    n: nat, alternatives: seq<Id>, values: map<Id, Values>, objectives: seq<Id>, epsilon: real): seq<Id>
    requires n <= |alternatives|
  {
    if n == 0 then []
    else
      UndominatedAmong(n - 1, alternatives, values, objectives, epsilon)
      + if Beaten(alternatives[n - 1], alternatives, values, objectives, epsilon) then [] else [alternatives[n - 1]]
  }

  function Undominated(alternatives: seq<Id>, values: map<Id, Values>, objectives: seq<Id>, epsilon: real): seq<Id> {
    UndominatedAmong(|alternatives|, alternatives, values, objectives, epsilon)
  }

  // ---------------------------------------------------------------- the loops

  method TestDominance(a: Values, b: Values, objectives: seq<Id>, epsilon: real) returns (r: bool)
    ensures r <==> Dominates(a, b, objectives, epsilon)
  {
    if objectives == [] { return false; }
    var better := false;
    var i := 0;
    while i < |objectives|
      invariant 0 <= i <= |objectives|
      invariant forall j | 0 <= j < i ::
                  objectives[j] in a && objectives[j] in b && a[objectives[j]] >= b[objectives[j]]
      invariant better <==> exists j | 0 <= j < i ::
                  objectives[j] in a && objectives[j] in b && a[objectives[j]] > b[objectives[j]] + epsilon
    {
      var k := objectives[i];
      if k !in a || k !in b { return false; }
      if a[k] < b[k] { return false; }
      if a[k] > b[k] + epsilon { better := true; }
      i := i + 1;
    }
    return better;
  }

  method FindUndominated(alternatives: seq<Id>, values: map<Id, Values>, objectives: seq<Id>, epsilon: real)
    returns (result: seq<Id>)
    ensures result == Undominated(alternatives, values, objectives, epsilon)
  {
    result := [];
    var n := 0;
    while n < |alternatives|
      invariant 0 <= n <= |alternatives|
      invariant result == UndominatedAmong(n, alternatives, values, objectives, epsilon)
    {
      var a := alternatives[n];
      var dominated := false;
      var i := 0;
      while i < |alternatives| && !dominated
        invariant 0 <= i <= |alternatives|
        invariant dominated ==> Beaten(a, alternatives, values, objectives, epsilon)
        invariant !dominated ==> forall j | 0 <= j < i :: !Beats(alternatives[j], a, values, objectives, epsilon)
      {
        var b := alternatives[i];
        var wins := TestDominance(ValuesOf(values, b), ValuesOf(values, a), objectives, epsilon);
        dominated := b != a && wins;
        i := i + 1;
      }
      if !dominated { result := result + [a]; }
      n := n + 1;
    }
  }

  // ---------------------------------------------------------------- order theory

  lemma {:induction false} UndominatedMembers(
    n: nat, alternatives: seq<Id>, values: map<Id, Values>, objectives: seq<Id>, epsilon: real)
    requires n <= |alternatives|
    ensures forall a :: a in UndominatedAmong(n, alternatives, values, objectives, epsilon)
                   <==> a in alternatives[..n] && !Beaten(a, alternatives, values, objectives, epsilon)
  {
    if n > 0 {
      UndominatedMembers(n - 1, alternatives, values, objectives, epsilon);
      assert alternatives[..n] == alternatives[..n - 1] + [alternatives[n - 1]];
    }
  }

  /** For epsilon >= 0, dominance is irreflexive, asymmetric and transitive. */
  lemma StrictPartialOrder(a: Values, b: Values, c: Values, objectives: seq<Id>, epsilon: real)
    requires epsilon >= 0.0
    ensures !Dominates(a, a, objectives, epsilon)
    ensures !(Dominates(a, b, objectives, epsilon) && Dominates(b, a, objectives, epsilon))
    ensures Dominates(a, b, objectives, epsilon) && Dominates(b, c, objectives, epsilon)
            ==> Dominates(a, c, objectives, epsilon)
  {
    if Dominates(a, b, objectives, epsilon) && Dominates(b, c, objectives, epsilon) {
      var i :| 0 <= i < |objectives| && a[objectives[i]] > b[objectives[i]] + epsilon;
      assert b[objectives[i]] >= c[objectives[i]];
      assert a[objectives[i]] > c[objectives[i]] + epsilon;
    }
  }

  ghost function Beaters(a: Id, alternatives: seq<Id>, values: map<Id, Values>, objectives: seq<Id>, epsilon: real)
    : set<Id>
  {
    set b | b in alternatives && Beats(b, a, values, objectives, epsilon)
  }

  /** Whatever is dominated is dominated by an alternative that is not: climbing must end. */
  lemma {:induction false} DominatedByUndominated(
    a: Id, alternatives: seq<Id>, values: map<Id, Values>, objectives: seq<Id>, epsilon: real) returns (u: Id)
    requires epsilon >= 0.0 && a in alternatives
    ensures u in Undominated(alternatives, values, objectives, epsilon)
    ensures u == a || Beats(u, a, values, objectives, epsilon)
    decreases |Beaters(a, alternatives, values, objectives, epsilon)|
  {
    hide Dominates;
    assert alternatives[..|alternatives|] == alternatives;
    UndominatedMembers(|alternatives|, alternatives, values, objectives, epsilon);
    if !Beaten(a, alternatives, values, objectives, epsilon) { return a; }
    var i :| 0 <= i < |alternatives| && Beats(alternatives[i], a, values, objectives, epsilon);
    var b := alternatives[i];
    BeatersShrink(a, b, alternatives, values, objectives, epsilon);
    u := DominatedByUndominated(b, alternatives, values, objectives, epsilon);
    if u != b {
      StrictPartialOrder(ValuesOf(values, u), ValuesOf(values, b), ValuesOf(values, a), objectives, epsilon);
      StrictPartialOrder(ValuesOf(values, a), ValuesOf(values, b), ValuesOf(values, a), objectives, epsilon);
    }
  }

  lemma BeatersShrink(
    a: Id, b: Id, alternatives: seq<Id>, values: map<Id, Values>, objectives: seq<Id>, epsilon: real)
    requires epsilon >= 0.0 && b in alternatives && Beats(b, a, values, objectives, epsilon)
    ensures |Beaters(b, alternatives, values, objectives, epsilon)|
          < |Beaters(a, alternatives, values, objectives, epsilon)|
  {
    var above, below := Beaters(b, alternatives, values, objectives, epsilon),
                        Beaters(a, alternatives, values, objectives, epsilon);
    forall x | x in above ensures x in below {
      StrictPartialOrder(ValuesOf(values, x), ValuesOf(values, b), ValuesOf(values, a), objectives, epsilon);
      StrictPartialOrder(ValuesOf(values, a), ValuesOf(values, b), ValuesOf(values, a), objectives, epsilon);
    }
    assert b in below && b !in above;
    ProperSubset(above, below, b);
  }

  lemma ProperSubset(x: set<Id>, y: set<Id>, b: Id)
    requires x <= y && b in y && b !in x
    ensures |x| < |y|
  {
    Smaller(x, y - {b});
  }

  lemma {:induction false} Smaller(x: set<Id>, y: set<Id>)
    requires x <= y
    ensures |x| <= |y|
  {
    if x != {} {
      var e :| e in x;
      Smaller(x - {e}, y - {e});
    }
  }

  /** The undominated set is never empty for non-empty input exactly when epsilon is not negative: two alternatives of
      equal value dominate each other under a negative epsilon. */
  lemma UndominatedNonEmptyIff(epsilon: real)
    ensures (forall alternatives: seq<Id>, values, objectives | alternatives != [] ::
               Undominated(alternatives, values, objectives, epsilon) != [])
       <==> epsilon >= 0.0
  {
    if epsilon >= 0.0 {
      forall alternatives: seq<Id>, values, objectives | alternatives != []
        ensures Undominated(alternatives, values, objectives, epsilon) != []
      {
        var u := DominatedByUndominated(alternatives[0], alternatives, values, objectives, epsilon);
      }
    } else {
      var objectives: seq<Id>, row: Values := [0], map[0 := 0.0];
      var alternatives: seq<Id>, values := [1, 2], map[1 := row, 2 := row];
      assert objectives[0] in row && row[objectives[0]] > row[objectives[0]] + epsilon;
      assert Dominates(row, row, objectives, epsilon);
      assert Beats(alternatives[0], 2, values, objectives, epsilon);
      assert Beats(alternatives[1], 1, values, objectives, epsilon);
      UndominatedMembers(2, alternatives, values, objectives, epsilon);
      assert UndominatedAmong(1, alternatives, values, objectives, epsilon) == [];
      assert Undominated(alternatives, values, objectives, epsilon) == [];
    }
  }

  /** Without objectives nothing is dominated. */
  lemma {:induction false} NothingDominatedWithoutObjectives(
    n: nat, alternatives: seq<Id>, values: map<Id, Values>, epsilon: real)
    requires n <= |alternatives|
    ensures UndominatedAmong(n, alternatives, values, [], epsilon) == alternatives[..n]
  {
    if n > 0 {
      NothingDominatedWithoutObjectives(n - 1, alternatives, values, epsilon);
      assert alternatives[..n] == alternatives[..n - 1] + [alternatives[n - 1]];
    }
  }
}
