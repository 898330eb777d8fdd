# Verified model of the collective-reasoning application layer

The repository is the backend of a platform on which agents assess, criticize and revise reasoning artifacts until a
consensus strategy ranks the alternatives. Its application layer holds protocols and algorithms that do their own
bookkeeping; database, model calls, clock and network stay behind ports. This project models those cores in Dafny and
proves what every step of them keeps, over whole runs and over every interleaving.

Three forms of definition are used throughout. A *specification function* on values says what one operation does to the
rows it works on, error paths included. A *class* holds the same rows as fields, and its methods, written with the
loops and the order of writes of the original, are proved equal to the specification function. *Runs* are sequences of
operations on values, starting from the empty state; an operation that raises leaves the state as it was, because the
caller's transaction rolls back (`ArtifactCommitService.Transact` shows this for the artifact store). Lemmas about runs
therefore speak about every reachable state.

## Modules

| file | what it models |
|---|---|
| `Records.dfy` | identities, artifacts, graph rows, commands and ledger events of one session |
| `ArtifactStore.dfy`, `StoreInvariants.dfy`, `ArtifactService.dfy` | the append-only artifact store: commit, revise, withdraw, with the constraints of the schema |
| `ProposalCommit.dfy` | the retry-safe commit of what an agent turn proposed |
| `CritiqueResponse.dfy`, `CritiqueRound.dfy`, `RoundEffects.dfy` | responses to critiques, a whole critique round, and what it leaves |
| `SessionRuns.dfy`, `ResponseRuns.dfy` | all of the above interleaved over the life of a session |
| `ConsensusEvidence.dfy`, `ConsensusDominance.dfy`, `ConsensusStrategies.dfy`, `ConsensusOutcomes.dfy` | the weighted, evidence-weighted and constraint-aware strategies, and when their outcomes keep to their description |
| `Gateway.dfy` | the tool gateway: result cache, calls in flight, cancellation, timeouts |
| `Dispatch.dfy` | the bounded worker pool |
| `AuditAnchors.dfy` | the hash-chained ledger, daily anchors, causation walk |
| `Retrieval.dfy` | rank fusion, reranker checks, the audit row of every path |
| `Replay.dfy` | paged ledger read, strict, tolerant and live replay |
| `Membership.dfy` | interventions on the membership of a session |
| `MarlRecords.dfy`, `MarlBundle.dfy`, `MarlExport.dfy` | trajectory records, bundle verification, episode export |
| `MarlGaps.dfy`, `MarlPrecedence.dfy` | what bundle verification does not check, and the order of its failures |
| `Options.dfy`, `Sorting.dfy` | a value that may be missing; stable sorting and the uniqueness of its result |

## Assumptions

- A name-based (version 5) UUID is an injective constructor of its name: identities derived from a turn, from a response
  and allocated by a caller never coincide (`Records.Id`). In whole-session runs, callers do not themselves allocate an
  identity that belongs to some turn (`SessionRuns.Allowed`) or, for the lemma on responses, to some response
  (`ResponseRuns.Foreign`).
- A content hash stands for its pre-image. In the store it is the artifact content itself; in the audit and trajectory
  modules it is a function parameter, and injectivity is a precondition only of the lemmas that need it.
- Canonical JSON is an abstract printer whose output has no line ends and whose reader accepts what it printed
  (`MarlBundle.Faithful`, `MarlBundle.Readable`; section 3.2 of RFC 8785 fixes the concrete form).
- Decimals and floats are exact reals. UUIDs that are sorted by value or by text are naturals or go through a rank.
- Gateway: the critical sections of the lock contain no suspension point, so acquiring it is not a cancellation point
  and the clean-up of an owner always happens. The model still lets other callers run between the clean-up, the
  validation and the caching of a result, and allows any number of cancellations.
- Replay: an implementation registered as deterministic and not external returns the same execution on every occasion
  (`Replay.Faithful`).

## Where the code and its description differ

- `docs/consensus-formalism/constraint_aware.md` names the dominance margin `pareto_epsilon` (default 0.05) and gives
  `min_flip_distance` the default 0.02; the code reads `epsilon` (default 0.01) and uses 0.05. Both margins are
  parameters here.
- The same document says that the UNKNOWN status is kept; in a returned frontier every score is labelled SAT. Scores
  keep the status exactly when the frontier is not in conflict or holds no UNKNOWN alternative
  (`ConsensusOutcomes.StatusRetainedIff`; `ConsensusOutcomes.FrontierHidesUnknown` is an input).
- The documents call UNKNOWN a cap: CONDITIONAL_CONSENSUS "at best". In all three strategies it also lifts: a leader
  of UNKNOWN feasibility is selected whatever its support. `ConsensusOutcomes.SelectedIff` says exactly when an
  alternative is selected, `ConsensusOutcomes.SupportedSelectionIff` exactly when a selection has the support that
  partial consensus asks for, and `ConsensusOutcomes.UnknownSelectedWithoutSupport` is an input.
- The document defines the flip distance as the least perturbation that changes the order; the code compares the two
  highest supports only. The report is right exactly when these two are close or no later neighbours are
  (`ConsensusOutcomes.FlipDistanceIff`; `ConsensusOutcomes.LaterTieIsMissed` is an input).
- A negative `epsilon` makes equal alternatives dominate each other and the ranking empty; no input leads there
  exactly when `epsilon` is not negative (`ConsensusOutcomes.NeverEmptyRankingIff`).
- The first invalid day of an integrity report is the day of the last failing anchor; it is the first exactly when at
  most one anchor fails (`AuditAnchors.ReportedDayIsFirstIff`, `AuditAnchors.ReportedDayCanBeLater`).
- VERIFIED does not imply a complete episode: `verify_bundle` accepts a manifest whose status is OPEN, which export
  refuses to write. It implies one exactly when the manifest is not OPEN (`MarlGaps.VerifiedIsCompleteIff`;
  `MarlGaps.OpenIsVerified` is an input).
- `docs/MARL_MODEL.md`, section 11, lists implementation pinning among the checks; the lists of the manifest are never
  read (`MarlGaps.ListsAreNotRead`). A manifest pins the implementations of its transitions exactly when its lists are
  the ones that export writes (`MarlGaps.PinnedIff`; `MarlGaps.UnpinnedIsVerified` is an input).
- The hash of an incomplete marker is checked exactly when a boundary is pending (`MarlGaps.MarkerHashCheckedIff`;
  `MarlGaps.WrongMarkerIsAccepted` is an input).
- Records are compared with the canonical form of what was parsed, so a defaulted member may be absent. The trajectory
  is the canonical form of its records exactly when none is (`MarlGaps.LinesAreCanonicalIff`;
  `MarlGaps.SparseIsVerified` is an input). `MarlExport.AcceptedIsExportIff` puts these points together: when an
  accepted bundle is an export. `MarlGaps.ReaderExists` gives a reader and limits for each of these inputs.
- A valid closed episode may be exported and still fail verification: one without transitions, with a second
  environment, or with a pending boundary or marker of another decision or episode (`MarlExport.ExportVerifiesIff`
  with `MarlExport.Coherent`; `MarlGaps.UnstartedFails` is an input).
- `docs/MARL_MODEL.md`, section 11, lists a precedence of failure codes. In the stages after the manifest the reported
  code is the first of those that apply exactly when no late episode hash and no late unknown implementation is among
  them (`MarlPrecedence.PrecedenceIff`; `MarlPrecedence.MismatchHidesUnknown` and `MarlPrecedence.ReferenceHidesHash`
  are inputs).
- A critique that names itself as its target would have its own lineage counted as the target's; the effect of a
  response on lineages is stated so that it covers this case too, and a REVISE response to it is refused
  (`CritiqueResponse.RevisedTargetIsAnotherLineage`).

## Model

| member | source | states |
|---|---|---|
| StoreInvariants.EarlierVersionExists | backend/alembic/versions/20260905_0005_reasoning_schema.py:805-825 | below any stored version of a logical artifact every version from 1 is stored |
| StoreInvariants.LineageIsLinear | backend/app/application/artifact_commit.py:160-331 | versions are exactly 1..n, one row each; those below n are SUPERSEDED and n is not |
| StoreInvariants.SupersededBelowHead | backend/app/application/artifact_commit.py:228-235 | a version is SUPERSEDED exactly when a later one exists |
| StoreInvariants.GraphIsAcyclic | backend/app/application/artifact_commit.py:107-158 | no walk along graph edges returns to its start |
| StoreInvariants.SupersedesMirrorsChains | backend/app/application/artifact_commit.py:239-250 | SUPERSEDES edges are exactly the supersession links |
| StoreInvariants.RelationshipsEffect | backend/app/application/artifact_commit.py:128-158 | relationship edges run from the new node to earlier nodes and nothing else changes |
| StoreInvariants.AppendRecorded | backend/app/db/reasoning_ledger.py:82-145 | an artifact event that may happen next is never taken for a stored one, and folding the ledger follows it |
| StoreInvariants.CommitKeepsInv | backend/app/application/artifact_commit.py:160-193 | a commit keeps chains, graph and ledger in step and adds exactly one artifact and one event |
| StoreInvariants.ReviseKeepsInv | backend/app/application/artifact_commit.py:195-276 | a revision supersedes exactly its ACTIVE predecessor and keeps chains, graph and ledger in step |
| StoreInvariants.WithdrawKeepsInv | backend/app/application/artifact_commit.py:278-331 | a withdrawal changes one ACTIVE row's lifecycle and keeps chains, graph and ledger in step |
| ArtifactService.RunKeepsInv | backend/app/application/artifact_commit.py:160-331 | the store invariant holds after every run of commits, revisions and withdrawals |
| ArtifactService.ReachableLineages | backend/app/application/artifact_commit.py:160-331 | in every reachable state lineages are 1..n, each version superseding the one before it, with at most one row not SUPERSEDED |
| ArtifactService.ReachableGraph | backend/app/application/artifact_commit.py:107-276 | in every reachable state the graph is acyclic and mirrors supersession |
| ArtifactService.ReachableLedger | backend/app/application/artifact_commit.py:180-193 | in every reachable state the ledger rebuilds every artifact's identity, kind, version, link and status |
| ArtifactService.StepGrows | backend/alembic/versions/20260905_0005_reasoning_schema.py:1011-1046 | no operation removes a row, rewrites a content, moves an event or reopens a lifecycle |
| ArtifactService.ArtifactCommitService.ResolveTargets | backend/app/application/artifact_commit.py:107-126 | the lookup loop finds the projected targets or raises the first error |
| ArtifactService.ArtifactCommitService.PutRelationships | backend/app/application/artifact_commit.py:128-158 | the loop adds the edges in order or raises the first error |
| ArtifactService.ArtifactCommitService.Commit | backend/app/application/artifact_commit.py:160-193 | writes artifact, node, edges and event exactly as specified, with the same error |
| ArtifactService.ArtifactCommitService.Revise | backend/app/application/artifact_commit.py:195-276 | writes the revision exactly as specified, with the same error |
| ArtifactService.ArtifactCommitService.Withdraw | backend/app/application/artifact_commit.py:278-331 | withdraws exactly as specified, with the same error |
| ArtifactService.ArtifactCommitService.Transact | backend/app/application/artifact_commit.py:52-65 | in the caller's transaction an error leaves the store untouched, and the invariant always holds afterwards |
| ProposalCommit.WriteFirstEffect | backend/app/application/proposal_commit.py:155-180 | writing the proposals in order stores each of them under its turn identities and keeps the store invariant |
| ProposalCommit.ReplayIsNoOp | backend/app/application/proposal_commit.py:183-220 | a command whose rows are stored changes nothing and returns the stored artifacts and events |
| ProposalCommit.FreshCommitIsWhole | backend/app/application/proposal_commit.py:104-181 | a first commit stores every row of the command and uses no identity of the turn beyond them |
| ProposalCommit.CommitTurnKeeps | backend/app/application/proposal_commit.py:104-181 | an accepted command keeps the store invariant, loses nothing, is stored entirely, and every turn stays whole or absent |
| ProposalCommit.RepeatedCommand | backend/app/application/proposal_commit.py:139-147 | at any later point the same command is accepted, changes nothing and returns the same artifact ids, contents and events |
| ProposalCommit.OneBundlePerTurn | backend/app/application/proposal_commit.py:506-524 | two accepted commands of one turn are the same command |
| ProposalCommit.SameCompletionSameCommand | backend/app/application/proposal_commit.py:455-503 | the completion event determines context, bundle, execution data and time |
| ProposalCommit.AgentProposalCommitter.GatherReferences | backend/app/application/proposal_commit.py:222-233 | the reference table holds each referenced artifact with the union of its permitted kinds |
| ProposalCommit.AgentProposalCommitter.CheckReferences | backend/app/application/proposal_commit.py:222-276 | passes exactly when all references are authorized, current and as shown to the turn |
| ProposalCommit.AgentProposalCommitter.PriorResult | backend/app/application/proposal_commit.py:183-220 | the loop returns the stored result or the conflict |
| ProposalCommit.AgentProposalCommitter.Commit | backend/app/application/proposal_commit.py:104-181 | guards, replay and writes together are the specified command |
| CritiqueResponse.FirstResponse | backend/app/application/critique_response.py:171-237 | the critique's lineage advances by one version, the target's by one more for REVISE, no other lineage changes, and all effects are stored |
| CritiqueResponse.CommitResponseKeeps | backend/app/application/critique_response.py:146-237 | an accepted response keeps the store invariant and leaves its request, result and effects |
| CritiqueResponse.RepeatedResponse | backend/app/application/critique_response.py:157-169 | at any later point the same response changes nothing and returns the stored result |
| CritiqueResponse.AtMostOnce | backend/app/application/critique_response.py:157-169 | under a used response identity only the same response is accepted, and it changes nothing |
| CritiqueResponse.RevisedTargetIsAnotherLineage | backend/app/application/critique_response.py:336-350 | an accepted REVISE revises a lineage other than the critique's |
| CritiqueResponse.ActiveIsHead | backend/app/application/critique_response.py:336-350 | two ACTIVE versions of one logical artifact are one row |
| CritiqueResponse.CritiqueResponseCommitter.CheckRequired | backend/app/application/critique_response.py:281-366 | the lookups accept exactly current, authorized references with the right heads, owner and warrants |
| CritiqueResponse.CritiqueResponseCommitter.CheckRevisionReferences | backend/app/application/critique_response.py:370-424 | accepts exactly revisions whose references are visible, current and of a permitted kind |
| CritiqueResponse.CritiqueResponseCommitter.Commit | backend/app/application/critique_response.py:146-237 | request row, revisions, event and result row together are the specified command |
| CritiqueRound.AddDistinct | backend/app/application/critique_round.py:104-156 | adding identities one by one succeeds exactly when none repeats |
| CritiqueRound.ValidateBatch | backend/app/application/critique_round.py:66-157 | accepts exactly batches with aligned events, distinct turns and agents, and matching assignments |
| CritiqueRound.RoundIsItsWrites | backend/app/application/critique_round.py:237-352 | a round succeeds exactly when command, outcomes and responses are in order and all of its writes succeed one after the other |
| RoundEffects.OneWritePerTurn | backend/app/application/critique_round.py:262-342 | of each turn of a round there is one write only |
| RoundEffects.RoundEffect | backend/app/application/critique_round.py:237-352 | after a successful round every completed context is committed whole and has no new timeout event, every other one has its timeout event and no other new trace, and the session invariants hold |
| CritiqueRound.ResponseOrderIsCanonical | backend/app/application/critique_round.py:330-342 | responses are committed by rising (target, responder), whatever order the dispatcher delivered |
| CritiqueRound.CritiqueRoundCoordinator.PrepareResponses | backend/app/application/critique_round.py:395-424 | builds the commands exactly when no response identity and no critique head repeats |
| CritiqueRound.CritiqueRoundCoordinator.CommitCritiques | backend/app/application/critique_round.py:269-305 | commits the completed turns and records the others, in assignment order |
| CritiqueRound.CritiqueRoundCoordinator.Run | backend/app/application/critique_round.py:237-352 | performs exactly the writes of the round, phase by phase, or raises the first error |
| SessionRuns.HistoryIsSound | backend/app/application/proposal_commit.py:104-181 | over any interleaving of all operations the store invariant holds and every turn is whole or absent |
| SessionRuns.TurnsAreWhole | backend/app/application/proposal_commit.py:104-181 | a turn has left no row, or all artifacts, nodes, edges, events and the completion of one command and nothing else |
| SessionRuns.HistoryGrows | backend/alembic/versions/20260905_0005_reasoning_schema.py:1011-1055 | from any point of a run to any later one rows are only added |
| SessionRuns.TurnsAreIdempotent | backend/app/application/proposal_commit.py:139-147 | a turn accepted anywhere in a run can be repeated after it without effect, and no other command of that turn is accepted |
| SessionRuns.ResponsesAreIdempotent | backend/app/application/critique_response.py:157-169 | a response accepted anywhere in a run returns its stored result after it, and its identity is spent |
| SessionRuns.ResponseAdvancesLineages | backend/app/application/critique_response.py:171-237 | over every run a response id takes effect once, on exactly the lineages it should, leaving at most one ACTIVE version of each |
| ResponseRuns.FirstResponseIsWhole | backend/app/application/critique_response.py:171-279 | a first response stores both revisions with nodes, edges and events, its event, request and result, under its own identities only |
| ResponseRuns.ResponsesAreWhole | backend/app/application/critique_response.py:146-279 | over every run a response has left no row at all, or every row of one command and nothing else |
| ConsensusEvidence.CapByPublisher | backend/app/application/consensus.py:573-585 | at most `cap` citations of each publisher are kept, the first ones, rejected ones included in the count |
| ConsensusEvidence.EvidenceStrength | backend/app/application/consensus.py:588-607 | totals supporting and opposing weight of the counted citations |
| ConsensusEvidence.SupportOf | backend/app/application/consensus.py:1129-1167 | evidence total and blended support of an alternative, or the division by zero |
| ConsensusEvidence.OneMoreCitation | backend/app/application/consensus.py:565-607 | one more citation only raises the total of its own polarity |
| ConsensusEvidence.RatioMonotone | backend/app/application/consensus.py:731-736 | the evidence ratio rises with support, falls with opposition and lies strictly between -1 and 1 |
| ConsensusEvidence.ClampNeverBites | backend/app/application/consensus.py:561-562 | with non-negative weights the clamp to [-1, 1] changes nothing |
| ConsensusEvidence.MoreEvidence | backend/app/application/consensus.py:1134-1167 | appending a SUPPORT citation never lowers blended support or evidence total; an OPPOSE one never raises support |
| ConsensusEvidence.MoreEvidenceInSession | backend/app/application/consensus.py:1129-1167 | the same for every alternative when any position of the session cites more |
| ConsensusEvidence.BlendedBounds | backend/app/application/consensus.py:84-109 | with position scores in [0, 1] all supports stay in [0, 1] |
| ConsensusEvidence.BlendedWithoutLambda | backend/app/application/consensus.py:722-755 | with lambda 0 evidence does not change the support |
| ConsensusDominance.TestDominance | backend/app/application/consensus.py:969-988 | the loop decides epsilon-dominance |
| ConsensusDominance.FindUndominated | backend/app/application/consensus.py:991-1012 | the nested loops keep exactly the undominated alternatives, in order |
| ConsensusDominance.StrictPartialOrder | backend/app/application/consensus.py:969-988 | for epsilon >= 0 dominance is irreflexive, asymmetric and transitive |
| ConsensusDominance.DominatedByUndominated | backend/app/application/consensus.py:991-1012 | whatever is left out is dominated by a member of the undominated set |
| ConsensusDominance.UndominatedNonEmptyIff | backend/app/application/consensus.py:1219-1222 | non-empty input always leaves a non-empty set exactly when epsilon >= 0 |
| ConsensusStrategies.SelectionIsSound | backend/app/application/consensus.py:1189-1364 | a selected alternative is rankable, evidenced, undominated and of maximal support, and each consensus outcome implies its conditions |
| ConsensusOutcomes.NeverEmptyRankingIff | backend/app/application/consensus.py:1335-1337 | no input makes the evaluation index an empty ranking exactly when epsilon >= 0 |
| ConsensusOutcomes.StatusRetainedIff | backend/app/application/consensus.py:1251-1297 | scores show UNKNOWN alternatives as such exactly when the frontier is not in conflict or holds none |
| ConsensusOutcomes.FrontierHidesUnknown | backend/app/application/consensus.py:1251-1269 | an input whose frontier shows an UNKNOWN alternative as SAT |
| ConsensusOutcomes.SelectedIff | backend/app/application/consensus.py:1335-1364 | in all three strategies the classified leader is selected exactly when it is UNKNOWN or meets a threshold |
| ConsensusOutcomes.SupportedSelectionIff | backend/app/application/consensus.py:1335-1364 | exactly when a selection has the support that partial consensus asks for |
| ConsensusOutcomes.UnknownSelectedWithoutSupport | backend/app/application/consensus.py:1350-1351 | an input for which every strategy selects an UNKNOWN alternative with support 0 |
| ConsensusOutcomes.FlipDistanceIff | backend/app/application/consensus.py:1320-1324 | the threshold-bound report agrees with the least perturbation that changes the order exactly when the two best are close or no later neighbours are |
| ConsensusOutcomes.LaterTieIsMissed | backend/app/application/consensus.py:1320-1324 | an input whose order any perturbation changes but that is not reported |
| ConsensusStrategies.EvidenceWeightedAgrees | backend/app/application/consensus.py:667-931 | with lambda 0 the decision is weighted's exactly when nothing is rankable or the leader has evidence; the ranking always is |
| ConsensusStrategies.ConstraintAwareAgrees | backend/app/application/consensus.py:1064-1412 | without objectives, evidence floor and lambda the decision is weighted's |
| ConsensusStrategies.LeaderIsMaximal | backend/app/application/consensus.py:1299-1303 | the first of a ranking has the highest score |
| ConsensusStrategies.FindBests | backend/app/application/consensus.py:1237-1249 | the loops collect the alternatives best on some objective |
| ConsensusStrategies.EvaluateWeighted | backend/app/application/consensus.py:320-514 | the evaluation loop computes the specified decision |
| ConsensusStrategies.EvaluateEvidenceWeighted | backend/app/application/consensus.py:667-931 | the evaluation loop computes the specified decision or exception |
| ConsensusStrategies.EvaluateConstraintAware | backend/app/application/consensus.py:1064-1412 | the seven stages compute the specified decision or exception |
| Gateway.RememberBounded | backend/app/application/mcp_gateway.py:235-238 | caching stores the result, evicts only the oldest entry of a full cache and keeps the bound |
| Gateway.MCPGateway.Enter | backend/app/application/mcp_gateway.py:166-195 | the first critical section answers, joins, starts or refuses as specified |
| Gateway.LeaveKeepsInv | backend/app/application/mcp_gateway.py:215-218 | leaving drops the entry that the caller itself started and no other; every other entry still belongs to its unfinished creator |
| Gateway.StartThenLeave | backend/app/application/mcp_gateway.py:178-218 | starting a call and leaving it restores the tables; answering from them changes nothing |
| Gateway.MCPGateway.Store | backend/app/application/mcp_gateway.py:235-238 | the last critical section keeps the cache and its order together |
| Gateway.NextKeepsInv | backend/app/application/mcp_gateway.py:166-239 | every indivisible step of every caller keeps the invariant, and resolved upstream calls stay as they are |
| Gateway.ReturnedResultsAreOwn | backend/app/application/mcp_gateway.py:219-239 | in every interleaving a returned result is validated and comes from an upstream call with the caller's full identity |
| Gateway.KnownOperations | backend/app/application/mcp_gateway.py:166-195 | while an operation is cached or in flight another identity is refused, and the same one is given the cached result or the call made for it |
| Gateway.CallStartsIff | backend/app/application/mcp_gateway.py:185-196 | a step starts an upstream call for an operation exactly when a caller enters while it is neither cached nor in flight |
| Gateway.NoCallWhileKnown | backend/app/application/mcp_gateway.py:166-196 | between two points of a schedule no call for an operation starts as long as it stays cached or in flight |
| Gateway.OnlyTheCreatorRemoves | backend/app/application/mcp_gateway.py:215-218 | an in-flight entry disappears only when its creator leaves |
| Gateway.NoEntryOutlivesItsCreator | backend/app/application/mcp_gateway.py:199-218 | every entry belongs to an unfinished caller; with all callers done the table is empty |
| Gateway.CacheIsBounded | backend/app/application/mcp_gateway.py:86-86 | the cache never exceeds 1024 entries |
| Gateway.OneOwnerPerOperation | backend/app/application/mcp_gateway.py:178-196 | at most one caller at a time has started an operation and not left it |
| Dispatch.ValidateBatch | backend/app/application/agent_dispatch.py:123-140 | accepts exactly sealed batches of one round and phase with distinct turns and agents |
| Dispatch.NextKeepsInv | backend/app/application/agent_dispatch.py:82-107 | every step keeps turns accounted for and outcomes faithful to the runtime's reports |
| Dispatch.EachTurnRunsOnce | backend/app/application/agent_dispatch.py:77-86 | under every schedule turns start in input order, each at most once |
| Dispatch.InFlightIsBounded | backend/app/application/agent_dispatch.py:109-111 | at most min(limit, n) different turns are in flight |
| Dispatch.StepsMakeProgress | backend/app/application/agent_dispatch.py:82-107 | each report lowers pending plus in-flight by one, no step raises it, and every step lowers a measure |
| Dispatch.NeverStuck | backend/app/application/agent_dispatch.py:82-118 | while a dispatch is not over some step is possible |
| Dispatch.NormalReturn | backend/app/application/agent_dispatch.py:109-120 | a dispatch returns outcomes exactly when no worker crashed and it was not aborted; then outcome i belongs to context i and abstains exactly for a timeout |
| Dispatch.WorkerPool.TakeNext | backend/app/application/agent_dispatch.py:84-87 | a worker takes the head of the queue or ends |
| Dispatch.WorkerPool.StoreAnswer | backend/app/application/agent_dispatch.py:101-107 | stores the answer in place, or ends the worker when it belongs to another turn |
| Dispatch.WorkerPool.StoreTimeout | backend/app/application/agent_dispatch.py:94-100 | stores the abstention in place |
| AuditAnchors.VerifyEvents | backend/app/db/reasoning_ledger.py:205-226 | accepts exactly gapless chains whose hashes and head agree; else names the first faulty event and its first fault, or the fault of the head |
| AuditAnchors.DescribesOnce | backend/app/db/reasoning_ledger.py:205-226 | at most one failure describes a ledger, so the reported one is determined |
| AuditAnchors.VerifyLedger | backend/app/db/reasoning_ledger.py:166-203 | the verification record with validity, count, head and failure, also when the head is missing |
| AuditAnchors.HashFixesHistory | backend/app/domain/reasoning_ledger.py:106-125 | two valid ledgers that agree on one event hash agree on everything before it |
| AuditAnchors.AnchorsVerifyIffProper | backend/app/application/audit.py:117-185 | all anchors verify exactly when they were published in increasing day order with newer heads and no visible late event |
| AuditAnchors.AnchorsFixHistory | backend/app/application/audit.py:403-425 | two valid ledgers that satisfy the same anchors agree up to the last anchored head |
| AuditAnchors.ProperAnchorsVerify | backend/app/application/audit.py:403-425 | properly published anchors all verify |
| AuditAnchors.VerifiedIsIncreasing | backend/app/application/audit.py:132-133 | anchors that all verify were published in increasing day order |
| AuditAnchors.ReportedDayIsFirstIff | backend/app/application/audit.py:155-175 | the day a report names is the first failing one exactly when at most one anchor fails |
| AuditAnchors.ReportedDayCanBeLater | backend/app/application/audit.py:171-175 | a session in which the report names day 3 although day 2 fails |
| AuditAnchors.ChainVerificationService.PublishDailyAnchor | backend/app/application/audit.py:117-145 | publishes the anchor of the day's head, or refuses |
| AuditAnchors.ChainVerificationService.ChainIntegrity | backend/app/application/audit.py:147-185 | the loop reports the ledger verification, the fault of every anchor, the reported day and validity |
| AuditAnchors.OriginatingTurn | backend/app/application/audit.py:346-366 | the causation walk finds the nearest completed turn exactly when one is within 32 hops, loops included |
| Retrieval.FusionIsExact | backend/app/application/retrieval.py:200-230 | each chunk of either arm once, scored by the sum of 1/(60+rank), sorted by falling score then identity |
| Retrieval.SwapArms | backend/app/application/retrieval.py:210-219 | swapping the arms changes neither ids, nor fused scores, nor order |
| Retrieval.DominantComesFirst | backend/app/application/retrieval.py:210-219 | a chunk ranked at least as well wherever the other appears, and better once, comes first |
| Retrieval.ReciprocalRankFusion | backend/app/application/retrieval.py:200-230 | the dictionary loops compute the fusion |
| Retrieval.ValidateRerankerOutput | backend/app/application/retrieval.py:233-253 | accepts exactly min(k, fused) distinct candidates changed at most in rerank score |
| Retrieval.AuditObligation | backend/alembic/versions/20260906_0017_rag_failed_audit.py:26-34 | for every port behaviour the audit row meets the census and is ALLOWED exactly when a result is returned |
| Retrieval.ResultsAreFusedChunks | backend/app/application/retrieval.py:108-116 | a returned result is a valid reranking of the fused chunks, or their prefix when the reranker failed |
| Retrieval.HybridRetriever.RetrieveAndAudit | backend/app/application/retrieval.py:50-156 | every path appends exactly one audit row |
| Replay.ReadAll | backend/app/application/run_manifest.py:150-163 | the paged read returns the whole ledger and terminates |
| Replay.VerifyLedger | backend/app/application/replay.py:134-176 | passes exactly when the ledger verifies and the recorded hashes are the stored ones; else names the first difference |
| Replay.NoDifferenceIff | backend/app/application/replay.py:365-445 | an execution has no tolerant difference exactly when strict replay accepts it |
| Replay.StrictIffTolerant | backend/app/application/replay.py:206-289 | strict replay goes on exactly as long as tolerant replay matches and implementations are reproducible |
| Replay.StrictImpliesTolerant | backend/app/application/replay.py:206-289 | VERIFIED implies MATCHED with no more checked steps; a match is VERIFIED exactly when all implementations are reproducible |
| Replay.ReplayStrictly | backend/app/application/replay.py:206-250 | the strict loop computes the specified progress |
| Replay.ReplayTolerantly | backend/app/application/replay.py:252-289 | the tolerant loop computes the specified progress |
| Replay.VerifyMarl | backend/app/application/replay.py:178-204 | passes exactly when all bundles are VERIFIED with a registry; else reports the first that is not |
| Replay.StartLive | backend/app/application/replay.py:291-346 | a live session starts exactly when a launcher is there, names the source and shares no identity with it |
| Replay.Replay | backend/app/application/replay.py:83-132 | the first failing check of source, request, ledger and bundles is reported; if all pass, the result of the mode |
| Membership.OneVersionPerRound | backend/app/domain/coordinator_policy.py:79-88 | in every run no round has two versions of one logical agent, and no intervention reaches beyond the next round |
| Membership.StartedRoundsAreFixed | backend/app/application/coordinator_policy.py:78-88 | nothing later changes the members of a round already started |
| Membership.ResendChangesNothing | backend/app/application/coordinator_policy.py:64-74 | a repeated event id changes nothing: equal content returns the members, other content is refused |
| Membership.AcceptedStaysAccepted | backend/app/application/coordinator_policy.py:64-74 | an accepted intervention can be repeated at any later point |
| Membership.QueryOrderIsAppendOrder | backend/app/db/coordinator_policy.py:90-108 | sorting by effective round and ledger position gives the order of the interventions |
| Membership.StoreKeepsInv | backend/app/application/coordinator_policy.py:75-148 | an admissible intervention changes the next round by exactly itself and keeps every round valid |
| Membership.SessionMembershipCoordinator.EffectiveMembers | backend/app/db/coordinator_policy.py:66-143 | the membership query folds the effective interventions and validates the snapshot |
| Membership.SessionMembershipCoordinator.ApplyIntervention | backend/app/application/coordinator_policy.py:62-148 | stores exactly the admissible interventions and keeps the invariant; any other is refused for the first reason that applies, a taken event identity included |
| MarlRecords.ReplayPassesIff | backend/app/application/marl.py:425-460 | a transition replays exactly when features, decision and observed rewards recompute with registered implementations |
| MarlRecords.BuildRewardVector | backend/app/domain/marl.py:530-541 | raises exactly for a missing value, a missing or surplus neutral reason or unordered sources; else five hashed components that recompute as exact differences |
| MarlBundle.SplitJoined | backend/app/application/marl.py:245-256 | splitting joined canonical lines gives back the lines |
| MarlBundle.SealedReachesRecords | backend/app/application/marl.py:463-612 | canonical lines within the limits pass decoding, schema, canonical form and manifest |
| MarlBundle.RecordsVerifyIff | backend/app/application/marl.py:585-772 | records are accepted exactly when authentic and reproducible; INCOMPLETE exactly for an episode cut short |
| MarlBundle.AcceptedIff | backend/app/application/marl.py:463-772 | a bundle is accepted exactly when it is canonical lines of a fitting manifest and of gapless, hashed, referenced records that recompute |
| MarlBundle.FailuresNameTheFirst | backend/app/application/marl.py:611-752 | a failure in a per-transition loop names the first transition that fails there |
| MarlBundle.VerifyTransitions | backend/app/application/marl.py:611-772 | the two loops and the checks around them are the specified last stages |
| MarlBundle.VerifyBundle | backend/app/application/marl.py:463-612 | the decoding, version and schema loops are the specified verification |
| MarlExport.UniqueRefsAscend | backend/app/application/marl.py:227-242 | the list of a manifest is ascending without repetition and holds exactly the implementations that occur |
| MarlExport.CollectRefs | backend/app/application/marl.py:227-242 | the dictionary loop collects that list |
| MarlExport.ExportEpisode | backend/app/application/marl.py:245-271 | writes the records and the manifest of a closed episode, and refuses an OPEN one |
| MarlExport.PackedIff | backend/app/application/marl.py:463-772 | which bundles of a valid episode are accepted, whatever its status, lists and omitted defaults |
| MarlExport.ExportVerifiesIff | backend/app/application/marl.py:245-271 | an exported valid episode is VERIFIED or INCOMPLETE exactly when it is hashed, coherent and reproducible, and fails otherwise |
| MarlExport.AcceptedIsExportIff | backend/app/application/marl.py:245-271 | an accepted bundle is byte for byte an export exactly when it is not OPEN, pins its implementations and omits no default |
| MarlGaps.VerifiedIsCompleteIff | backend/app/application/marl.py:745-772 | VERIFIED implies COMPLETE exactly when the manifest is not OPEN |
| MarlGaps.OpenIsVerified | backend/app/application/marl.py:745-772 | an OPEN bundle that is VERIFIED |
| MarlGaps.PinnedIff | backend/app/application/marl.py:254-265 | lists name exactly the implementations used exactly when they are the ones export writes |
| MarlGaps.ListsAreNotRead | backend/app/application/marl.py:463-772 | the verdict is the same for any lists |
| MarlGaps.UnpinnedIsVerified | backend/app/application/marl.py:463-772 | a VERIFIED bundle that names no implementation |
| MarlGaps.MarkerHashCheckedIff | backend/app/application/marl.py:416-422 | with another marker hash an accepted episode stays accepted exactly when nothing is pending or the hash is right |
| MarlGaps.WrongMarkerIsAccepted | backend/app/application/marl.py:638-653 | a marker with a wrong hash that passes with valid integrity |
| MarlGaps.LinesAreCanonicalIff | backend/app/application/marl.py:566-585 | the trajectory is the canonical form of its records exactly when no default is omitted |
| MarlGaps.SparseIsVerified | backend/app/application/marl.py:515-556 | a VERIFIED bundle whose record omits its schema version |
| MarlGaps.UnstartedFails | backend/app/application/marl.py:674-696 | a valid episode that is exported and fails |
| MarlPrecedence.ReportedApplies | backend/app/application/marl.py:602-772 | the reported code applies, and none is reported exactly when none applies |
| MarlPrecedence.PrecedenceIff | backend/app/application/marl.py:602-772 | the reported code is the first by precedence exactly when no late episode hash and no late unknown implementation applies |
| MarlPrecedence.MismatchHidesUnknown | backend/app/application/marl.py:710-744 | an input on which REPLAY_MISMATCH hides UNKNOWN_IMPLEMENTATION |
| MarlPrecedence.ReferenceHidesHash | backend/app/application/marl.py:654-709 | an input on which REFERENCE_MISMATCH hides HASH_MISMATCH |

## Left out

- Workspaces and sessions: one session of one workspace is modelled at a time, so row-level scoping does not appear.
- The database triggers that check that identifiers inside payloads exist, and the content validation of payloads.
- `validate_artifact_payload`, node labels, edge qualifiers, confidences and provenance: carried as opaque values.
- An artifact snapshot whose declared kind, owner or round contradicts its own content hash.
- Derivation records, explanations, contributions, dissent and minority reports of the consensus strategies.
- Decimal rounding and floating-point error; scores, weights and metric values are exact.
- `ConsensusOrchestrator`, the strategy registry, `explanation.py`, `metrics.py` and the other projections.
- Token verification, context authorization and argument checks of the gateway, which precede its tables.
- Upstream calls being made at most once per operation: between leaving the table and caching a result a second call
  may start, and the model keeps that gap.
- `BudgetCoordinator.enforce`: threshold comparisons in front of a dispatch, weaker than the properties proved.
- What a live session does after it is launched; the launcher's answer is an input.
- The details of trajectory validators on fields that the model carries as opaque values: feature, action, decision and
  credit shapes, and the identity of the observation that an action or decision refers to.
- Implementations that raise while being replayed, and ports that raise anything but port errors.
- The lists returned by a critique round and its explanation handoff; what the round writes is modelled.
- The parallel lists of a round command are records, so their alignment holds by construction.
- Concrete hashing, UUID and JSON text; the depth and size limits of the JSON reader are part of the abstract reader.
- Sealing, prompts, model calls, object storage, row-level security and the HTTP layer.
- ProposalCommit.AgentProposalCommitter.CheckReferences: visits references in any order, so which invalid reference an
  error message names is not modelled.
- CritiqueResponse.CritiqueResponseCommitter.CheckRequired: likewise does not fix which reference an error names.
- AuditAnchors.OriginatingTurn: looks at identities, causation and completion of events only.
