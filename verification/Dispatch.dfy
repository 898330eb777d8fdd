/** The bounded worker pool that runs the turns of one batch and returns their outcomes in input order. */
module Dispatch {
  import opened Options

  datatype Phase = ASSESS | CRITIQUE | REVISE | OTHER

  datatype Context = Context(
    workspace: nat, session: nat, round: nat, phase: Phase, turn: nat, agent: nat, sealed: bool, visible: seq<nat>)

  datatype Execution = Execution(turn: nat, content: nat)

  datatype Outcome = Completed(context: Context, execution: Execution) | Abstained(context: Context)

  // ---------------------------------------------------------------- the batch

  predicate SameBatch(a: Context, b: Context) {
    a.workspace == b.workspace && a.session == b.session && a.round == b.round && a.phase == b.phase
  }

  /** The first assessment must not see the work of others. */
  predicate Sealed(c: Context) {
    c.round == 1 && c.phase.ASSESS? ==> c.sealed && c.visible == []
  }

  predicate ValidBatch(cs: seq<Context>) {
    && cs != []
    && (forall i | 0 <= i < |cs| :: SameBatch(cs[0], cs[i]) && Sealed(cs[i]))
    && (forall i, j | 0 <= i < j < |cs| :: cs[i].turn != cs[j].turn && cs[i].agent != cs[j].agent)
  }

  method ValidateBatch(cs: seq<Context>) returns (ok: bool)
    ensures ok <==> ValidBatch(cs)
  {
    if cs == [] { return false; }
    var turns, agents := {}, {};
    var i := 0;
    while i < |cs|
      invariant 0 <= i <= |cs|
      invariant forall k | 0 <= k < i :: SameBatch(cs[0], cs[k]) && Sealed(cs[k])
      invariant forall k, j | 0 <= k < j < i :: cs[k].turn != cs[j].turn && cs[k].agent != cs[j].agent
      invariant forall t :: t in turns <==> exists k | 0 <= k < i :: cs[k].turn == t
      invariant forall a :: a in agents <==> exists k | 0 <= k < i :: cs[k].agent == a
    {
      if !SameBatch(cs[0], cs[i]) { return false; }
      if cs[i].turn in turns || cs[i].agent in agents { return false; }
      turns, agents := turns + {cs[i].turn}, agents + {cs[i].agent};
      if !Sealed(cs[i]) { return false; }
      i := i + 1;
    }
    return true;
  }

  // ---------------------------------------------------------------- the pool

  /** A worker loops from `Idle`; `Crashed` and `Stopped` keep the turn they were running. */
  datatype Worker = Idle | Running(index: nat) | Exited | Crashed(index: nat) | Stopped(last: Option<nat>)
  {
    predicate Final() { Exited? || Crashed? || Stopped? }
  }

  /** What the runtime reported for a turn, in the order of the reports. */
  datatype Report = Answered(index: nat, execution: Execution) | Expired(index: nat) | Broke(index: nat)

  datatype State = State(
    contexts: seq<Context>, queue: seq<nat>, workers: seq<Worker>, outcomes: seq<Option<Outcome>>, runs: seq<nat>,
    reports: seq<Report>, aborted: bool)

  function Range(from: nat, to: nat): (r: seq<nat>)
    requires from <= to
    ensures |r| == to - from && forall i | 0 <= i < |r| :: r[i] == from + i
  {
    seq(to - from, i requires 0 <= i < to - from => from + i)
  }

  function PoolSize(limit: nat, n: nat): nat { if limit < n then limit else n }

  function Start(contexts: seq<Context>, limit: nat): State {
    var n := |contexts|;
    State(contexts, Range(0, n), seq(PoolSize(limit, n), _ => Idle), seq(n, _ => None), [], [], false)
  }

  /** A worker takes the next turn, sees the queue empty, or hears from the runtime; an exception in one worker, or the
      cancellation of the whole dispatch, lets the others be cancelled. */
  datatype Step =
    | Take(worker: nat)
    | Exit(worker: nat)
    | Answer(worker: nat, execution: Execution)
    | Expire(worker: nat)
    | Break(worker: nat)
    | Abort
    | Stop(worker: nat)

  predicate AnyCrashed(s: State) { exists w | 0 <= w < |s.workers| :: s.workers[w].Crashed? }

  predicate IsRunning(s: State, w: nat) {
    w < |s.workers| && s.workers[w].Running? && s.workers[w].index < |s.contexts| == |s.outcomes|
  }

  predicate Enabled(s: State, step: Step) {
    match step
    case Take(w) => w < |s.workers| && s.workers[w].Idle? && s.queue != []
    case Exit(w) => w < |s.workers| && s.workers[w].Idle? && s.queue == []
    case Answer(w, _) => IsRunning(s, w)
    case Expire(w) => IsRunning(s, w)
    case Break(w) => IsRunning(s, w)
    case Abort => !s.aborted && exists w | 0 <= w < |s.workers| :: !s.workers[w].Final()
    case Stop(w) => w < |s.workers| && !s.workers[w].Final() && (s.aborted || AnyCrashed(s))
  }

  function Next(s: State, step: Step): State
    requires Enabled(s, step)
  {
    match step
    case Take(w) =>
      s.(queue := s.queue[1..], workers := s.workers[w := Running(s.queue[0])], runs := s.runs + [s.queue[0]])
    case Exit(w) => s.(workers := s.workers[w := Exited])
    case Answer(w, e) =>
      var i := s.workers[w].index;
      var s' := s.(reports := s.reports + [Answered(i, e)]);
      // The outcome refuses a proposal of another turn, which ends the worker like any other exception.
      if e.turn != s.contexts[i].turn then s'.(workers := s.workers[w := Crashed(i)])
      else s'.(workers := s.workers[w := Idle], outcomes := s.outcomes[i := Some(Completed(s.contexts[i], e))])
    case Expire(w) =>
      var i := s.workers[w].index;
      s.(workers := s.workers[w := Idle], outcomes := s.outcomes[i := Some(Abstained(s.contexts[i]))],
         reports := s.reports + [Expired(i)])
    case Break(w) =>
      s.(workers := s.workers[w := Crashed(s.workers[w].index)], reports := s.reports + [Broke(s.workers[w].index)])
    case Abort => s.(aborted := true)
    case Stop(w) =>
      var pc := s.workers[w];
      s.(workers := s.workers[w := Stopped(if pc.Running? then Some(pc.index) else None)])
  }

  /** The state after any schedule; a step that is not enabled does not happen. */
  function Run(contexts: seq<Context>, limit: nat, steps: seq<Step>): State {
    if steps == [] then Start(contexts, limit)
    else
      var s := Run(contexts, limit, steps[..|steps| - 1]);
      if Enabled(s, steps[|steps| - 1]) then Next(s, steps[|steps| - 1]) else s
  }

  /** The dispatch is over; it returns normally when no worker crashed or was stopped. */
  predicate Over(s: State) { forall w | 0 <= w < |s.workers| :: s.workers[w].Final() }
  predicate Normal(s: State) { !s.aborted && forall w | 0 <= w < |s.workers| :: s.workers[w].Exited? }

  datatype Dispatched = Outcomes(outcomes: seq<Outcome>) | WorkerFailed | Incomplete

  /** What the caller of a dispatch that is over receives. */
  function Result(s: State): Dispatched {
    if !Normal(s) then WorkerFailed
    else if exists i | 0 <= i < |s.outcomes| :: s.outcomes[i].None? then Incomplete
    else Outcomes(seq(|s.outcomes|, i requires 0 <= i < |s.outcomes| && s.outcomes[i].Some? => s.outcomes[i].value))
  }

  // ---------------------------------------------------------------- invariants

  /** Turns leave the queue in input order, each once. */
  ghost predicate InOrder(s: State) {
    && |s.outcomes| == |s.contexts| && |s.runs| + |s.queue| == |s.contexts|
    && s.runs == Range(0, |s.runs|) && s.queue == Range(|s.runs|, |s.contexts|)
  }

  /** The turn a worker has taken and not handed in. */
  function Held(w: Worker): Option<nat> {
    match w
    case Running(i) => Some(i)
    case Crashed(i) => Some(i)
    case Stopped(last) => last
    case _ => None
  }

  ghost predicate Open(s: State, i: nat) { i < |s.runs| && i < |s.outcomes| && s.outcomes[i].None? }

  ghost predicate HeldBySome(s: State, i: nat) { exists w | 0 <= w < |s.workers| :: Held(s.workers[w]) == Some(i) }

  /** Every turn that was started has its outcome or is held by exactly one worker. */
  ghost predicate Accounted(s: State) {
    && (forall w | 0 <= w < |s.workers| && Held(s.workers[w]).Some? :: Open(s, Held(s.workers[w]).value))
    && (forall v, w | 0 <= v < w < |s.workers| && Held(s.workers[v]).Some? :: Held(s.workers[v]) != Held(s.workers[w]))
    && (forall i: nat | Open(s, i) :: HeldBySome(s, i))
    && (forall i | 0 <= i < |s.outcomes| && s.outcomes[i].Some? :: i < |s.runs|)
  }

  ghost predicate OutcomeOk(s: State, i: nat, o: Outcome)
    requires i < |s.contexts|
  {
    match o
    case Completed(c, e) => c == s.contexts[i] && e.turn == c.turn && Answered(i, e) in s.reports
    case Abstained(c) => c == s.contexts[i] && Expired(i) in s.reports
  }

  /** An outcome is what the runtime reported for its own context; every expiry has become an abstention. */
  ghost predicate Reported(s: State) {
    && |s.outcomes| == |s.contexts|
    && (forall i | 0 <= i < |s.outcomes| && s.outcomes[i].Some? :: OutcomeOk(s, i, s.outcomes[i].value))
    && (forall i: nat | Expired(i) in s.reports :: i < |s.outcomes| && s.outcomes[i] == Some(Abstained(s.contexts[i])))
  }

  /** Without a crash or an abort nobody is stopped, and workers leave only when the queue is empty. */
  ghost predicate Orderly(s: State) {
    && (!s.aborted && !AnyCrashed(s) ==> forall w | 0 <= w < |s.workers| :: !s.workers[w].Stopped?)
    && (forall w | 0 <= w < |s.workers| && s.workers[w].Exited? :: s.queue == [])
  }

  ghost predicate Inv(s: State, limit: nat) {
    && InOrder(s) && Accounted(s) && Reported(s) && Orderly(s)
    && |s.workers| == PoolSize(limit, |s.contexts|)
  }

  lemma StartInv(contexts: seq<Context>, limit: nat)
    ensures Inv(Start(contexts, limit), limit)
  {
  }

  lemma HeldElsewhere(s: State, s': State, w: nat, i: nat)
    requires HeldBySome(s, i) && w < |s.workers| && Held(s.workers[w]) != Some(i)
    requires |s'.workers| == |s.workers| && s'.workers == s.workers[w := s'.workers[w]]
    ensures HeldBySome(s', i)
  {
    var v :| 0 <= v < |s.workers| && Held(s.workers[v]) == Some(i);
    assert Held(s'.workers[v]) == Some(i);
  }

  /** Worker `w` took the next turn. */
  lemma TakeAccounted(s: State, w: nat)
    requires InOrder(s) && Accounted(s) && Enabled(s, Take(w))
    ensures InOrder(Next(s, Take(w))) && Accounted(Next(s, Take(w)))
  {
    var s' := Next(s, Take(w));
    assert s.queue[0] == |s.runs|;
    assert Held(s'.workers[w]) == Some(|s.runs|);
    forall i: nat | Open(s', i) ensures HeldBySome(s', i) {
      if i < |s.runs| {
        assert Open(s, i);
        HeldElsewhere(s, s', w, i);
      }
    }
    forall v, u | 0 <= v < u < |s'.workers| && Held(s'.workers[v]).Some?
      ensures Held(s'.workers[v]) != Held(s'.workers[u])
    {
      assert v != w ==> Open(s, Held(s.workers[v]).value);
      assert u != w && Held(s.workers[u]).Some? ==> Open(s, Held(s.workers[u]).value);
    }
    forall v | 0 <= v < |s'.workers| && Held(s'.workers[v]).Some? ensures Open(s', Held(s'.workers[v]).value) {
      assert v != w ==> Open(s, Held(s.workers[v]).value);
    }
  }

  /** Worker `w` changed, but holds what it held. */
  lemma StillAccounted(s: State, s': State, w: nat)
    requires Accounted(s) && w < |s.workers| && s'.runs == s.runs && s'.outcomes == s.outcomes
    requires |s'.workers| == |s.workers| && s'.workers == s.workers[w := s'.workers[w]]
    requires Held(s'.workers[w]) == Held(s.workers[w])
    ensures Accounted(s')
  {
    forall i: nat | Open(s', i) ensures HeldBySome(s', i) {
      assert Open(s, i);
      var v :| 0 <= v < |s.workers| && Held(s.workers[v]) == Some(i);
      assert Held(s'.workers[v]) == Some(i);
    }
    forall v | 0 <= v < |s'.workers| && Held(s'.workers[v]).Some? ensures Open(s', Held(s'.workers[v]).value) {
      assert Open(s, Held(s.workers[v]).value);
    }
  }

  /** Worker `w` handed in the outcome of its turn. */
  lemma OutcomeAccounted(s: State, s': State, w: nat, i: nat)
    requires Accounted(s) && w < |s.workers| && s.workers[w] == Running(i) && s'.runs == s.runs && i < |s.outcomes|
    requires s'.workers == s.workers[w := Idle]
    requires |s'.outcomes| == |s.outcomes| && s'.outcomes == s.outcomes[i := s'.outcomes[i]] && s'.outcomes[i].Some?
    ensures Accounted(s')
  {
    assert Held(s.workers[w]) == Some(i);
    assert Open(s, i);
    forall k: nat | Open(s', k) ensures HeldBySome(s', k) {
      assert Open(s, k);
      HeldElsewhere(s, s', w, k);
    }
    forall v | 0 <= v < |s'.workers| && Held(s'.workers[v]).Some? ensures Open(s', Held(s'.workers[v]).value) {
      assert Open(s, Held(s.workers[v]).value);
      assert Held(s.workers[v]) != Held(s.workers[w]);
    }
  }

  lemma OutcomeReported(s: State, s': State, i: nat, o: Outcome, r: Report)
    requires Reported(s) && i < |s.outcomes| && s.outcomes[i].None? && s'.contexts == s.contexts
    requires s'.reports == s.reports + [r] && s'.outcomes == s.outcomes[i := Some(o)]
    requires OutcomeOk(s', i, o) && (r == Expired(i) ==> o.Abstained?) && (r.Expired? ==> r.index == i)
    ensures Reported(s')
  {
    forall k | 0 <= k < |s'.outcomes| && s'.outcomes[k].Some? ensures OutcomeOk(s', k, s'.outcomes[k].value) {
      if k != i { assert OutcomeOk(s, k, s.outcomes[k].value); }
    }
  }

  lemma StillReported(s: State, s': State)
    requires Reported(s) && s'.contexts == s.contexts && s'.outcomes == s.outcomes && s.reports <= s'.reports
    requires forall r | r in s'.reports && r.Expired? :: r in s.reports
    ensures Reported(s')
  {
    forall k | 0 <= k < |s'.outcomes| && s'.outcomes[k].Some? ensures OutcomeOk(s', k, s'.outcomes[k].value) {
      assert OutcomeOk(s, k, s.outcomes[k].value);
    }
  }

  lemma NextKeepsInv(s: State, limit: nat, step: Step)
    requires Inv(s, limit) && Enabled(s, step)
    ensures Inv(Next(s, step), limit)
  {
    hide Accounted, Reported, OutcomeOk;
    var s' := Next(s, step);
    match step {
      case Take(w) =>
        TakeAccounted(s, w);
        StillReported(s, s');
      case Exit(w) =>
        StillAccounted(s, s', w);
        StillReported(s, s');
      case Answer(w, e) => AnswerKeepsInv(s, limit, w, e);
      case Expire(w) => ExpireKeepsInv(s, limit, w);
      case Break(w) =>
        StillAccounted(s, s', w);
        StillReported(s, s');
        assert s'.workers[w].Crashed?;
      case Abort =>
        AbortAccounted(s);
        StillReported(s, s');
      case Stop(w) =>
        StillAccounted(s, s', w);
        StillReported(s, s');
    }
    OrderlyNext(s, step);
  }

  lemma AbortAccounted(s: State)
    requires Accounted(s)
    ensures Accounted(s.(aborted := true))
  {
    var s' := s.(aborted := true);
    forall i: nat | Open(s', i) ensures HeldBySome(s', i) {
      assert Open(s, i);
      var v :| 0 <= v < |s.workers| && Held(s.workers[v]) == Some(i);
      assert Held(s'.workers[v]) == Some(i);
    }
    forall v | 0 <= v < |s'.workers| && Held(s'.workers[v]).Some? ensures Open(s', Held(s'.workers[v]).value) {
      assert Open(s, Held(s.workers[v]).value);
    }
  }

  lemma OrderlyNext(s: State, step: Step)
    requires Orderly(s) && Enabled(s, step)
    ensures Orderly(Next(s, step))
  {
    var s' := Next(s, step);
    if !s'.aborted && !AnyCrashed(s') {
      if AnyCrashed(s) { CrashStays(s, step); }
    }
  }

  lemma CrashStays(s: State, step: Step)
    requires Enabled(s, step) && AnyCrashed(s)
    ensures AnyCrashed(Next(s, step))
  {
    var v :| 0 <= v < |s.workers| && s.workers[v].Crashed?;
    assert Next(s, step).workers[v].Crashed?;
  }

  lemma NoOutcomeYet(s: State, w: nat)
    requires Accounted(s) && IsRunning(s, w)
    ensures s.outcomes[s.workers[w].index].None?
  {
    assert Open(s, Held(s.workers[w]).value);
  }

  lemma AnswerKeepsInv(s: State, limit: nat, w: nat, e: Execution)
    requires Inv(s, limit) && Enabled(s, Answer(w, e))
    ensures var s' := Next(s, Answer(w, e)); InOrder(s') && Accounted(s') && Reported(s')
  {
    hide Accounted, Reported;
    var s' := Next(s, Answer(w, e));
    var i := s.workers[w].index;
    NoOutcomeYet(s, w);
    assert s'.reports[|s.reports|] == Answered(i, e);
    if e.turn != s.contexts[i].turn {
      StillAccounted(s, s', w);
      StillReported(s, s');
    } else {
      OutcomeAccounted(s, s', w, i);
      OutcomeReported(s, s', i, Completed(s.contexts[i], e), Answered(i, e));
    }
  }

  lemma ExpireKeepsInv(s: State, limit: nat, w: nat)
    requires Inv(s, limit) && Enabled(s, Expire(w))
    ensures var s' := Next(s, Expire(w)); InOrder(s') && Accounted(s') && Reported(s')
  {
    hide Accounted, Reported;
    var s' := Next(s, Expire(w));
    var i := s.workers[w].index;
    NoOutcomeYet(s, w);
    assert s'.reports[|s.reports|] == Expired(i);
    OutcomeAccounted(s, s', w, i);
    OutcomeReported(s, s', i, Abstained(s.contexts[i]), Expired(i));
  }

  lemma {:induction false} RunKeepsInv(contexts: seq<Context>, limit: nat, steps: seq<Step>)
    ensures Inv(Run(contexts, limit, steps), limit) && Run(contexts, limit, steps).contexts == contexts
  {
    hide Next, Enabled, Inv;
    if steps == [] {
      StartInv(contexts, limit);
    } else {
      RunKeepsInv(contexts, limit, steps[..|steps| - 1]);
      var s := Run(contexts, limit, steps[..|steps| - 1]);
      if Enabled(s, steps[|steps| - 1]) {
        NextKeepsInv(s, limit, steps[|steps| - 1]);
        SameContexts(s, steps[|steps| - 1]);
      }
    }
  }

  lemma SameContexts(s: State, step: Step)
    requires Enabled(s, step)
    ensures Next(s, step).contexts == s.contexts
  {
  }

  // ---------------------------------------------------------------- every schedule

  /** Each turn is run at most once, and turns start in input order. */
  lemma EachTurnRunsOnce(contexts: seq<Context>, limit: nat, steps: seq<Step>)
    ensures var runs := Run(contexts, limit, steps).runs;
            |runs| <= |contexts| && runs == Range(0, |runs|)
  {
    RunKeepsInv(contexts, limit, steps);
  }

  function Weight(w: Worker): nat { if w.Idle? then 1 else if w.Running? then 2 else 0 }
  function Busy(w: Worker): nat { if w.Running? then 1 else 0 }

  function Total(f: Worker -> nat, ws: seq<Worker>): nat {
    if ws == [] then 0 else Total(f, ws[..|ws| - 1]) + f(ws[|ws| - 1])
  }

  lemma {:induction false} TotalUpdate(f: Worker -> nat, ws: seq<Worker>, w: nat, v: Worker)
    requires w < |ws|
    ensures Total(f, ws[w := v]) + f(ws[w]) == Total(f, ws) + f(v)
  {
    var n := |ws| - 1;
    if w < n {
      TotalUpdate(f, ws[..n], w, v);
      assert ws[w := v][..n] == ws[..n][w := v];
    } else {
      assert ws[w := v][..n] == ws[..n];
    }
  }

  lemma {:induction false} TotalBound(ws: seq<Worker>)
    ensures Total(Busy, ws) <= |ws|
  {
    if ws != [] { TotalBound(ws[..|ws| - 1]); }
  }

  /** The turns being run now. */
  function InFlight(s: State): nat { Total(Busy, s.workers) }

  /** At most min(limit, n) turns are in flight, all different. */
  lemma InFlightIsBounded(contexts: seq<Context>, limit: nat, steps: seq<Step>)
    ensures var s := Run(contexts, limit, steps);
            && InFlight(s) <= PoolSize(limit, |contexts|)
            && forall v, w | 0 <= v < w < |s.workers| && s.workers[v].Running? && s.workers[w].Running? ::
                 s.workers[v].index != s.workers[w].index
  {
    RunKeepsInv(contexts, limit, steps);
    var s := Run(contexts, limit, steps);
    TotalBound(s.workers);
    forall v, w | 0 <= v < w < |s.workers| && s.workers[v].Running? && s.workers[w].Running?
      ensures s.workers[v].index != s.workers[w].index
    {
      assert Held(s.workers[v]) != Held(s.workers[w]);
    }
  }

  /** Waiting turns plus turns in flight. */
  function Load(s: State): nat { |s.queue| + InFlight(s) }

  /** Bounds the steps that are left. */
  function Measure(s: State): nat {
    2 * |s.queue| + Total(Weight, s.workers) + if s.aborted then 0 else 1
  }

  predicate Settles(s: State, step: Step) {
    || step.Answer? || step.Expire? || step.Break?
    || (step.Stop? && step.worker < |s.workers| && s.workers[step.worker].Running?)
  }

  /** Every report of the runtime lowers the load by one and no step raises it; every step lowers the measure, so that
      each schedule ends. */
  lemma StepsMakeProgress(s: State, step: Step)
    requires Enabled(s, step)
    ensures Load(Next(s, step)) == Load(s) - if Settles(s, step) then 1 else 0
    ensures Measure(Next(s, step)) < Measure(s)
  {
    if step.Abort? { return; }
    var w := step.worker;
    var v := Next(s, step).workers[w];
    assert Next(s, step).workers == s.workers[w := v];
    TotalUpdate(Busy, s.workers, w, v);
    TotalUpdate(Weight, s.workers, w, v);
  }

  /** While a dispatch is not over, some step can happen. */
  lemma NeverStuck(contexts: seq<Context>, limit: nat, steps: seq<Step>) returns (step: Step)
    requires !Over(Run(contexts, limit, steps))
    ensures Enabled(Run(contexts, limit, steps), step)
  {
    RunKeepsInv(contexts, limit, steps);
    var s := Run(contexts, limit, steps);
    var w :| 0 <= w < |s.workers| && !s.workers[w].Final();
    if s.workers[w].Idle? {
      step := if s.queue == [] then Exit(w) else Take(w);
    } else {
      assert Open(s, Held(s.workers[w]).value);
      step := Expire(w);
    }
  }

  /** A dispatch that returns normally has exactly one outcome per context, in input order; it is an abstention exactly
      when the turn timed out, and otherwise what the runtime answered for that very turn. */
  lemma NormalReturn(contexts: seq<Context>, limit: nat, steps: seq<Step>)
    requires contexts != [] && limit >= 1 && Over(Run(contexts, limit, steps))
    ensures var s := Run(contexts, limit, steps);
            && (Result(s).Outcomes? <==> !s.aborted && !AnyCrashed(s))
            && (Result(s).Outcomes? ==>
                  && |Result(s).outcomes| == |contexts|
                  && forall i | 0 <= i < |contexts| ::
                       var o := Result(s).outcomes[i];
                       && o.context == contexts[i]
                       && (o.Abstained? <==> Expired(i) in s.reports)
                       && (o.Completed? ==>
                             o.execution.turn == contexts[i].turn && Answered(i, o.execution) in s.reports))
  {
    hide Run;
    RunKeepsInv(contexts, limit, steps);
    var s := Run(contexts, limit, steps);
    if !s.aborted && !AnyCrashed(s) {
      assert s.workers[0].Exited?;
      forall i | 0 <= i < |s.outcomes| ensures s.outcomes[i].Some? && OutcomeOk(s, i, s.outcomes[i].value) {
        assert !Open(s, i);
      }
    } else if AnyCrashed(s) {
      var w :| 0 <= w < |s.workers| && s.workers[w].Crashed?;
      assert !Normal(s);
    }
  }

  // ---------------------------------------------------------------- the shared queue and the outcome list

  /** What the workers of one dispatch share; `outcomes` is filled in place. */
  class WorkerPool {
    const contexts: seq<Context>
    const outcomes: array<Option<Outcome>>
    var queue: seq<nat>
    var workers: seq<Worker>
    ghost var runs: seq<nat>
    ghost var reports: seq<Report>
    ghost var aborted: bool

    ghost function View(): State
      reads this, outcomes
    {
      State(contexts, queue, workers, outcomes[..], runs, reports, aborted)
    }

    constructor (batch: seq<Context>, limit: nat)
      ensures View() == Start(batch, limit) && fresh(outcomes)
    {
      contexts := batch;
      outcomes := new Option<Outcome>[|batch|](_ => None);
      queue := Range(0, |batch|);
      workers := seq(PoolSize(limit, |batch|), _ => Idle);
      runs, reports, aborted := [], [], false;
    }

    /** The head of a worker's loop: the next turn, or the end when the queue is empty. */
    method TakeNext(w: nat) returns (index: Option<nat>)
      requires w < |workers| && workers[w].Idle?
      modifies this
      ensures View() == old(Next(View(), if queue == [] then Exit(w) else Take(w)))
      ensures index == if old(queue) == [] then None else Some(old(queue)[0])
    {
      if queue == [] {
        workers := workers[w := Exited];
        return None;
      }
      index := Some(queue[0]);
      queue, workers, runs := queue[1..], workers[w := Running(queue[0])], runs + [queue[0]];
    }

    /** A worker stores the answer of its turn; the outcome refuses a proposal of another turn. */
    method StoreAnswer(w: nat, e: Execution)
      requires IsRunning(View(), w)
      modifies this, outcomes
      ensures View() == old(Next(View(), Answer(w, e)))
    {
      var i := workers[w].index;
      reports := reports + [Answered(i, e)];
      if e.turn != contexts[i].turn {
        workers := workers[w := Crashed(i)];
      } else {
        outcomes[i] := Some(Completed(contexts[i], e));
        workers := workers[w := Idle];
      }
    }

    method StoreTimeout(w: nat)
      requires IsRunning(View(), w)
      modifies this, outcomes
      ensures View() == old(Next(View(), Expire(w)))
    {
      var i := workers[w].index;
      reports := reports + [Expired(i)];
      outcomes[i] := Some(Abstained(contexts[i]));
      workers := workers[w := Idle];
    }
  }
}
