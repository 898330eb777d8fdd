/** Trajectory records of a learning episode, the hashes they carry, and the shapes their validators demand. */
module MarlRecords {
  import opened Options

  type Hash = nat
  type Bytes = seq<nat>

  datatype Ref = Ref(id: nat, version: nat)

  datatype Snapshot = Snapshot(facts: nat, hash: Hash)
  datatype Source = Source(ordinal: nat, snapshot: Snapshot, hash: Hash)
  datatype Feature = Feature(implementation: Ref, value: nat, sources: seq<Hash>, hash: Hash)

  datatype Observation = Observation(
    episode: nat, index: nat, workspace: nat, session: nat, environment: nat, implementation: Ref, ledgerSeq: nat,
    terminal: bool, facts: nat, sources: seq<Source>, features: seq<Feature>, sourcesHash: Hash, featuresHash: Hash,
    hash: Hash)

  datatype Action = Action(episode: nat, index: nat, facts: nat, hash: Hash)
  datatype DecisionOutcome = ACCEPTED | REJECTED | NO_PROPOSAL
  datatype Decision = Decision(
    episode: nat, index: nat, outcome: DecisionOutcome, implementation: Ref, facts: nat, hash: Hash)

  datatype Boundary = Boundary(
    episode: nat, index: nat, observation: Observation, proposed: Option<Action>, decision: Decision,
    executed: Option<Action>, hash: Hash)

  datatype RewardStatus = OBSERVED | NOT_APPLICABLE | MISSING_INPUT
  datatype Direction = HIGHER_BETTER | LOWER_BETTER | NO_DIRECTION

  /** Metric values are exact rationals. */
  datatype Reward = Reward(
    component: nat, ordinal: nat, implementation: Ref, direction: Direction, pre: Option<real>, post: Option<real>,
    value: real, status: RewardStatus, reason: Option<nat>, sources: seq<Hash>, facts: nat, hash: Hash)

  datatype Credit = Credit(
    component: nat, componentHash: Hash, neutral: bool, value: real, implementation: Ref, facts: nat, hash: Hash)

  datatype Transition = Transition(
    episode: nat, index: nat, boundary: Boundary, post: Observation, rewards: seq<Reward>, credits: seq<Credit>,
    terminal: bool, hash: Hash)

  datatype Marker = Marker(episode: nat, openIndex: nat, facts: nat, boundaryHash: Option<Hash>, hash: Hash)

  datatype Record =
    | TransitionRecord(transition: Transition) | BoundaryRecord(boundary: Boundary) | MarkerRecord(marker: Marker)

  datatype Status = OPEN | COMPLETE | CUT_SHORT

  datatype Episode = Episode(
    id: nat, workspace: nat, session: nat, environment: nat, code: Hash, status: Status, transitions: seq<Transition>,
    pending: Option<Boundary>, marker: Option<Marker>)

  /** The implementation versions that a manifest pins, by what they compute. */
  datatype Implementations = Implementations(
    observation: seq<Ref>, reward: seq<Ref>, credit: seq<Ref>, coordinator: seq<Ref>)

  datatype Manifest = Manifest(
    episode: nat, status: Status, environment: nat, code: Hash, implementations: Implementations, trajectoryHash: Hash,
    byteLength: nat, recordCount: nat, episodeHash: Hash)

  /** What is hashed; the hash of an object leaves out only that hash itself. */
  datatype Preimage =
    | SnapshotPre(snapshot: Snapshot) | SourcePre(source: Source) | FeaturePre(feature: Feature)
    | SourcesPre(sources: seq<Source>) | FeaturesPre(features: seq<Feature>) | ObservationPre(observation: Observation)
    | ProposedPre(proposed: Action) | ExecutedPre(executed: Action) | DecisionPre(decision: Decision)
    | BoundaryPre(boundary: Boundary) | RewardPre(reward: Reward) | CreditPre(credit: Credit)
    | TransitionPre(transition: Transition) | MarkerPre(marker: Marker) | BytesPre(bytes: Bytes)
    | EpisodePre(
        id: nat, workspace: nat, session: nat, environment: nat, code: Hash, status: Status, transitions: seq<Hash>,
        pending: Option<Hash>, incomplete: Option<Hash>)

  type Digest = Preimage -> Hash

  // ---------------------------------------------------------------- hashes

  predicate SourceHashed(h: Digest, s: Source) {
    s.snapshot.hash == h(SnapshotPre(s.snapshot.(hash := 0))) && s.hash == h(SourcePre(s.(hash := 0)))
  }

  predicate FeatureHashed(h: Digest, f: Feature) { f.hash == h(FeaturePre(f.(hash := 0))) }

  predicate PartsHashed(h: Digest, o: Observation) {
    && (forall i | 0 <= i < |o.sources| :: SourceHashed(h, o.sources[i]))
    && (forall i | 0 <= i < |o.features| :: FeatureHashed(h, o.features[i]))
    && o.hash == h(ObservationPre(o.(hash := 0)))
  }

  predicate ObservationHashed(h: Digest, o: Observation) {
    && PartsHashed(h, o)
    && o.sourcesHash == h(SourcesPre(o.sources)) && o.featuresHash == h(FeaturesPre(o.features))
  }

  /** Everything of a boundary but the two list hashes of its observation. */
  predicate BoundaryHashed(h: Digest, b: Boundary) {
    && PartsHashed(h, b.observation)
    && (b.proposed.Some? ==> b.proposed.value.hash == h(ProposedPre(b.proposed.value.(hash := 0))))
    && (b.executed.Some? ==> b.executed.value.hash == h(ExecutedPre(b.executed.value.(hash := 0))))
    && b.decision.hash == h(DecisionPre(b.decision.(hash := 0)))
    && b.hash == h(BoundaryPre(b.(hash := 0)))
  }

  predicate RewardHashed(h: Digest, r: Reward) { r.hash == h(RewardPre(r.(hash := 0))) }
  predicate CreditHashed(h: Digest, c: Credit) { c.hash == h(CreditPre(c.(hash := 0))) }

  predicate TransitionHashed(h: Digest, t: Transition) {
    && ObservationHashed(h, t.boundary.observation) && ObservationHashed(h, t.post) && BoundaryHashed(h, t.boundary)
    && (forall i | 0 <= i < |t.rewards| :: RewardHashed(h, t.rewards[i]))
    && (forall i | 0 <= i < |t.credits| :: CreditHashed(h, t.credits[i]))
    && t.hash == h(TransitionPre(t.(hash := 0)))
  }

  predicate MarkerHashed(h: Digest, m: Marker) { m.hash == h(MarkerPre(m.(hash := 0))) }

  predicate PendingHashed(h: Digest, b: Boundary, m: Option<Marker>) {
    && BoundaryHashed(h, b)
    && m.Some? && m.value.boundaryHash == Some(b.hash) && MarkerHashed(h, m.value)
  }

  function TransitionHashes(ts: seq<Transition>): seq<Hash> { seq(|ts|, i requires 0 <= i < |ts| => ts[i].hash) }

  function EpisodeHash(h: Digest, e: Episode): Hash {
    h(EpisodePre(e.id, e.workspace, e.session, e.environment, e.code, e.status, TransitionHashes(e.transitions),
                 if e.pending.Some? then Some(e.pending.value.hash) else None,
                 if e.marker.Some? then Some(e.marker.value.hash) else None))
  }

  // ---------------------------------------------------------------- shapes

  predicate ObservationOk(o: Observation) { forall i | 0 <= i < |o.sources| :: o.sources[i].ordinal == i }

  predicate RefersTo(a: Option<Action>, b: Boundary) {
    a.Some? ==> a.value.episode == b.episode && a.value.index == b.index
  }

  predicate BoundaryOk(b: Boundary) {
    && ObservationOk(b.observation)
    && b.observation.episode == b.episode && b.observation.index == b.index && !b.observation.terminal
    && b.decision.episode == b.episode && b.decision.index == b.index
    && RefersTo(b.proposed, b) && RefersTo(b.executed, b)
    && (b.proposed.None? <==> b.decision.outcome.NO_PROPOSAL?)
    && (b.executed.None? <==> !b.decision.outcome.ACCEPTED?)
  }

  predicate Rising(hashes: seq<Hash>) { forall i, j | 0 <= i < j < |hashes| :: hashes[i] <= hashes[j] }

  predicate RewardOk(r: Reward) {
    && Rising(r.sources)
    && if r.status.OBSERVED? then r.pre.Some? && r.post.Some? && r.reason.None? else r.value == 0.0 && r.reason.Some?
  }

  function CreditSum(cs: seq<Credit>, component: nat): real {
    if cs == [] then 0.0
    else CreditSum(cs[..|cs| - 1], component) + if cs[|cs| - 1].component == component then cs[|cs| - 1].value else 0.0
  }

  function CreditCount(cs: seq<Credit>, component: nat): nat {
    if cs == [] then 0
    else CreditCount(cs[..|cs| - 1], component) + if cs[|cs| - 1].component == component then 1 else 0
  }

  /** Credits pay out exactly the reward of their component; a neutral component has one neutral credit. */
  predicate Conserved(rewards: seq<Reward>, credits: seq<Credit>) {
    && (forall i | 0 <= i < |credits| ::
          exists j | 0 <= j < |rewards| ::
            rewards[j].component == credits[i].component && rewards[j].hash == credits[i].componentHash)
    && (forall j | 0 <= j < |rewards| ::
          && CreditSum(credits, rewards[j].component) == rewards[j].value
          && if rewards[j].status.OBSERVED? then CreditCount(credits, rewards[j].component) >= 1
             else
               && CreditCount(credits, rewards[j].component) == 1
               && forall i | 0 <= i < |credits| && credits[i].component == rewards[j].component :: credits[i].neutral)
  }

  predicate TransitionOk(t: Transition) {
    && BoundaryOk(t.boundary) && ObservationOk(t.post)
    && t.boundary.episode == t.episode && t.boundary.index == t.index
    && t.post.episode == t.episode && t.post.index == t.index + 1
    && t.post.ledgerSeq >= t.boundary.observation.ledgerSeq && t.terminal == t.post.terminal
    && |t.rewards| == 5
    && (forall i | 0 <= i < 5 :: t.rewards[i].ordinal == i && RewardOk(t.rewards[i]))
    && (forall i, j | 0 <= i < j < 5 :: t.rewards[i].component != t.rewards[j].component)
    && Conserved(t.rewards, t.credits)
  }

  predicate RecordOk(r: Record) {
    match r
    case TransitionRecord(t) => TransitionOk(t)
    case BoundaryRecord(b) => BoundaryOk(b)
    case MarkerRecord(_) => true
  }

  predicate InScope(e: Episode, o: Observation) { o.workspace == e.workspace && o.session == e.session }

  predicate Gapless(ts: seq<Transition>) { forall i | 0 <= i < |ts| :: ts[i].index == i }

  predicate Lifecycle(e: Episode) {
    match e.status
    case OPEN => e.marker.None? && (e.pending.Some? ==> e.pending.value.index == |e.transitions|)
    case COMPLETE =>
      && e.transitions != [] && e.transitions[|e.transitions| - 1].terminal && e.pending.None? && e.marker.None?
    case CUT_SHORT =>
      && e.marker.Some? && e.marker.value.openIndex == |e.transitions|
      && (e.pending.None? <==> e.marker.value.boundaryHash.None?)
      && (e.pending.Some? ==> Some(e.pending.value.hash) == e.marker.value.boundaryHash)
  }

  /** The validators of an episode. */
  predicate EpisodeOk(e: Episode) {
    && (forall i, j | 0 <= i < j < |e.transitions| :: e.transitions[i].hash != e.transitions[j].hash)
    && Gapless(e.transitions)
    && (forall i | 0 <= i < |e.transitions| ::
          && e.transitions[i].episode == e.id
          && InScope(e, e.transitions[i].boundary.observation) && InScope(e, e.transitions[i].post))
    && (e.pending.Some? ==> InScope(e, e.pending.value.observation))
    && Lifecycle(e)
  }

  // ---------------------------------------------------------------- replay

  /** The registered local implementations and what they compute. */
  datatype Registry = Registry(
    features: set<Ref>, feature: (Ref, Snapshot) -> nat, coordinators: set<Ref>,
    coordinator: (Ref, Boundary) -> Decision, rewards: set<Ref>,
    reward: (Ref, Option<real>, Option<real>, Direction) -> real, credits: set<Ref>)

  datatype Code =
    | BUNDLE_ENTRY_SET | RESOURCE_LIMIT_EXCEEDED | INVALID_UTF8 | INVALID_JSON | UNSUPPORTED_SCHEMA_VERSION
    | SCHEMA_VIOLATION | NONCANONICAL_ENCODING | MANIFEST_MISMATCH | ORDER_VIOLATION | HASH_MISMATCH
    | REFERENCE_MISMATCH | UNKNOWN_IMPLEMENTATION | REPLAY_MISMATCH | EPISODE_INCOMPLETE

  /** Later sources under the same hash win. */
  function SnapshotOf(sources: seq<Source>, hash: Hash): Option<Snapshot> {
    if sources == [] then None
    else if sources[|sources| - 1].hash == hash then Some(sources[|sources| - 1].snapshot)
    else SnapshotOf(sources[..|sources| - 1], hash)
  }

  function ReplayFeature(r: Registry, sources: seq<Source>, f: Feature): Option<Code> {
    if f.implementation !in r.features then Some(UNKNOWN_IMPLEMENTATION)
    else if |f.sources| != 1 || SnapshotOf(sources, f.sources[0]).None? then Some(REPLAY_MISMATCH)
    else if r.feature(f.implementation, SnapshotOf(sources, f.sources[0]).value) != f.value then Some(REPLAY_MISMATCH)
    else None
  }

  function ReplayDecision(r: Registry, b: Boundary): Option<Code> {
    if b.decision.implementation !in r.coordinators then Some(UNKNOWN_IMPLEMENTATION)
    else if r.coordinator(b.decision.implementation, b) != b.decision then Some(REPLAY_MISMATCH)
    else None
  }

  function ReplayReward(r: Registry, w: Reward): Option<Code> {
    if w.implementation !in r.rewards then Some(UNKNOWN_IMPLEMENTATION)
    else if w.status.OBSERVED? && r.reward(w.implementation, w.pre, w.post, w.direction) != w.value
    then Some(REPLAY_MISMATCH)
    else None
  }

  function ReplayCredit(r: Registry, c: Credit): Option<Code> {
    if c.implementation !in r.credits then Some(UNKNOWN_IMPLEMENTATION) else None
  }

  /** The first failure of a list of checks. */
  function First(checks: seq<Option<Code>>): Option<Code> {
    if checks == [] then None else if checks[0].Some? then checks[0] else First(checks[1..])
  }

  function FeatureChecks(r: Registry, o: Observation): (c: seq<Option<Code>>)
    ensures |c| == |o.features| && forall i | 0 <= i < |c| :: c[i] == ReplayFeature(r, o.sources, o.features[i])
  {
    seq(|o.features|, i requires 0 <= i < |o.features| => ReplayFeature(r, o.sources, o.features[i]))
  }

  function RewardChecks(r: Registry, ws: seq<Reward>): (c: seq<Option<Code>>)
    ensures |c| == |ws| && forall i | 0 <= i < |c| :: c[i] == ReplayReward(r, ws[i])
  {
    seq(|ws|, i requires 0 <= i < |ws| => ReplayReward(r, ws[i]))
  }

  function CreditChecks(r: Registry, cs: seq<Credit>): (c: seq<Option<Code>>)
    ensures |c| == |cs| && forall i | 0 <= i < |c| :: c[i] == ReplayCredit(r, cs[i])
  {
    seq(|cs|, i requires 0 <= i < |cs| => ReplayCredit(r, cs[i]))
  }

  function TransitionChecks(r: Registry, t: Transition): seq<Option<Code>> {
    FeatureChecks(r, t.boundary.observation) + FeatureChecks(r, t.post) + [ReplayDecision(r, t.boundary)]
    + RewardChecks(r, t.rewards) + CreditChecks(r, t.credits)
  }

  function ReplayTransition(r: Registry, t: Transition): Option<Code> { First(TransitionChecks(r, t)) }

  /** Recomputing gives what was recorded. */
  predicate FeaturesReproduced(r: Registry, o: Observation) {
    forall i | 0 <= i < |o.features| ::
      var f := o.features[i];
      f.implementation in r.features && |f.sources| == 1 && SnapshotOf(o.sources, f.sources[0]).Some?
      && r.feature(f.implementation, SnapshotOf(o.sources, f.sources[0]).value) == f.value
  }

  predicate Reproduced(r: Registry, t: Transition) {
    && FeaturesReproduced(r, t.boundary.observation) && FeaturesReproduced(r, t.post)
    && t.boundary.decision.implementation in r.coordinators
    && r.coordinator(t.boundary.decision.implementation, t.boundary) == t.boundary.decision
    && (forall i | 0 <= i < |t.rewards| ::
          var w := t.rewards[i];
          w.implementation in r.rewards
          && (w.status.OBSERVED? ==> r.reward(w.implementation, w.pre, w.post, w.direction) == w.value))
    && (forall i | 0 <= i < |t.credits| :: t.credits[i].implementation in r.credits)
  }

  lemma {:induction false} FirstNone(checks: seq<Option<Code>>)
    ensures First(checks).None? <==> forall i | 0 <= i < |checks| :: checks[i].None?
  {
    if checks != [] {
      FirstNone(checks[1..]);
      if First(checks).None? {
        forall i | 0 <= i < |checks| ensures checks[i].None? { if i > 0 { assert checks[i] == checks[1..][i - 1]; } }
      }
    }
  }

  lemma FirstConcat(a: seq<Option<Code>>, b: seq<Option<Code>>)
    ensures First(a + b).None? <==> First(a).None? && First(b).None?
  {
    FirstNone(a);
    FirstNone(b);
    FirstNone(a + b);
    if First(a + b).None? {
      forall i | 0 <= i < |b| ensures b[i].None? { assert (a + b)[|a| + i] == b[i]; }
      forall i | 0 <= i < |a| ensures a[i].None? { assert (a + b)[i] == a[i]; }
    }
  }

  lemma FeaturesReproducedIff(r: Registry, o: Observation)
    ensures First(FeatureChecks(r, o)).None? <==> FeaturesReproduced(r, o)
  {
    FirstNone(FeatureChecks(r, o));
    if FeaturesReproduced(r, o) {
      forall i | 0 <= i < |o.features| ensures FeatureChecks(r, o)[i].None? {
      }
    } else if First(FeatureChecks(r, o)).None? {
      forall i | 0 <= i < |o.features| ensures ReplayFeature(r, o.sources, o.features[i]).None? {
        assert FeatureChecks(r, o)[i].None?;
      }
      assert FeaturesReproduced(r, o);
    }
  }

  /** A transition passes replay exactly when every feature, the decision and every observed reward recompute to the
      recorded value with registered implementations. */
  lemma ReplayPassesIff(r: Registry, t: Transition)
    ensures ReplayTransition(r, t).None? <==> Reproduced(r, t)
  {
    hide FeatureChecks, First, FeaturesReproduced, ReplayFeature;
    var a, b := FeatureChecks(r, t.boundary.observation), FeatureChecks(r, t.post);
    var d, w, c := [ReplayDecision(r, t.boundary)], RewardChecks(r, t.rewards), CreditChecks(r, t.credits);
    FirstConcat(a + b + d + w, c);
    FirstConcat(a + b + d, w);
    FirstConcat(a + b, d);
    FirstConcat(a, b);
    FeaturesReproducedIff(r, t.boundary.observation);
    FeaturesReproducedIff(r, t.post);
    FirstNone(d);
    FirstNone(w);
    FirstNone(c);
    assert First(d).None? <==> d[0].None?;
    RewardsIff(r, t.rewards);
    CreditsIff(r, t.credits);
  }

  lemma RewardsIff(r: Registry, ws: seq<Reward>)
    ensures (forall i | 0 <= i < |ws| :: RewardChecks(r, ws)[i].None?)
       <==> (forall i | 0 <= i < |ws| ::
               ws[i].implementation in r.rewards
               && (ws[i].status.OBSERVED? ==>
                     r.reward(ws[i].implementation, ws[i].pre, ws[i].post, ws[i].direction) == ws[i].value))
  {
    assert forall i | 0 <= i < |ws| :: RewardChecks(r, ws)[i] == ReplayReward(r, ws[i]);
  }

  lemma CreditsIff(r: Registry, cs: seq<Credit>)
    ensures (forall i | 0 <= i < |cs| :: CreditChecks(r, cs)[i].None?)
       <==> (forall i | 0 <= i < |cs| :: cs[i].implementation in r.credits)
  {
    assert forall i | 0 <= i < |cs| :: CreditChecks(r, cs)[i] == ReplayCredit(r, cs[i]);
  }

  // ---------------------------------------------------------------- the reward vector

  datatype RewardInput = RewardInput(
    pre: Option<real>, post: Option<real>, status: RewardStatus, reason: Option<nat>, sources: seq<Hash>, facts: nat)

  const REWARD_DIRECTIONS: seq<Direction> := [HIGHER_BETTER, HIGHER_BETTER, NO_DIRECTION, HIGHER_BETTER, LOWER_BETTER]

  /** Each of the five components has its own implementation, in version 1. */
  function RewardRef(ordinal: nat): Ref { Ref(ordinal, 1) }

  function ExactDelta(pre: real, post: real, d: Direction): real {
    if d.LOWER_BETTER? then pre - post else post - pre
  }

  /** A registry whose reward implementations are the exact differences. */
  ghost predicate RegistersDeltas(r: Registry) {
    && (forall i | 0 <= i < 5 :: RewardRef(i) in r.rewards)
    && forall ref, pre, post, d :: r.reward(ref, Some(pre), Some(post), d) == ExactDelta(pre, post, d)
  }

  /** An observed input has both values and no reason for being neutral, any other has a reason; sources are ordered. */
  predicate InputOk(x: RewardInput) {
    && Rising(x.sources)
    && if x.status.OBSERVED? then x.pre.Some? && x.post.Some? && x.reason.None? else x.reason.Some?
  }

  /** The five components in order. A malformed input raises; otherwise every component has the shape its validator
      demands, carries its hash, and recomputes under the exact differences. */
  method BuildRewardVector(h: Digest, components: seq<nat>, inputs: seq<RewardInput>, ghost r: Registry)
    returns (v: Option<seq<Reward>>)
    requires |components| == |inputs| == 5 && RegistersDeltas(r)
    ensures v.Some? <==> forall i | 0 <= i < 5 :: InputOk(inputs[i])
    ensures v.Some? ==> |v.value| == 5 && forall i | 0 <= i < 5 ::
              && v.value[i].ordinal == i && v.value[i].component == components[i]
              && v.value[i].status == inputs[i].status
              && v.value[i].direction == REWARD_DIRECTIONS[i]
              && RewardOk(v.value[i]) && RewardHashed(h, v.value[i]) && ReplayReward(r, v.value[i]).None?
  {
    var values: seq<Reward> := [];
    var i := 0;
    while i < 5
      invariant 0 <= i <= 5 && |values| == i
      invariant forall k | 0 <= k < i :: InputOk(inputs[k])
      invariant forall k | 0 <= k < i ::
                  && values[k].ordinal == k && values[k].component == components[k]
                  && values[k].status == inputs[k].status && values[k].direction == REWARD_DIRECTIONS[k]
                  && RewardOk(values[k]) && RewardHashed(h, values[k]) && ReplayReward(r, values[k]).None?
    {
      var x, d := inputs[i], REWARD_DIRECTIONS[i];
      var value := 0.0;
      if x.status.OBSERVED? {
        if x.pre.None? || x.post.None? {
          assert !InputOk(inputs[i]);
          return None;
        }
        value := ExactDelta(x.pre.value, x.post.value, d);
      }
      var bare := Reward(components[i], i, RewardRef(i), d, x.pre, x.post, value, x.status, x.reason, x.sources,
                         x.facts, 0);
      if !RewardOk(bare) {
        assert !InputOk(inputs[i]);
        return None;
      }
      var reward := bare.(hash := h(RewardPre(bare)));
      assert reward.(hash := 0) == bare;
      values := values + [reward];
      i := i + 1;
    }
    return Some(values);
  }
}
