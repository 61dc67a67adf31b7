# Verification model of the Roy research runtime

This project models the parts of the research runtime whose correctness spans many steps, and
proves what they promise for every input, every run and every place a process may die.

* `OrganizationModel`, `OrganizationSafety`, `OrganizationBookkeeping`, `OrganizationTermination`,
  `OrganizationOffers`, `OrganizationDepthFirst`, `OrganizationDependencies`, `OrganizationScheduler`,
  `OrganizationStranding`, `OrganizationStuckRun`, `OrganizationAgent` and `ExplorationEnvelope`: the agent
  tree that grows while one agent answers a question. A decision is any candidate that is
  offered and legal, a report of the language model is arbitrary data, and the environment answers
  one tool call with one tool message and one question with one user message. `OrganizationModel`
  has the transitions as functions on values; the class `Agent` has the same state in fields and is
  proved to carry out those transitions, so what is proved about all runs holds of the object.
* `ShortestPath`: the gold answers of the routing problems, by a queue with outdated entries.
* `GraphBatch`, `GraphLocality`, `ValueScoring` and `PolicyLoss`: many graphs evaluated at once against
  each alone, what each node hears, the deduplication and batching above it, and the clipped loss
  accumulated over microbatches.
* `TokenLedger`: the shared token ledger and the retry loops of the provider clients.
* `OnPolicyTraining`: collecting groups of eight rollouts and updating, across crashes and resumes.
* `NativeCheckpoint`: capture and restore of a native environment.
* `Midranks` and `TopologyDelta`: exact bookkeeping of ranks, recorded changes and credit.
* `Wrappers` and `Counting`: an option, a result, and one counting argument.

## What the proofs found

* A node that starts out waiting on dependencies never wakes under the deepest-node scheduler, and
  no node above it finishes; a child runs exactly when its producers were returned, and not pruned,
  when it was derived (`ChildRunsIffProducersReturned`, `SomeChildNeverRuns`).
* The documentation of `envelope_legal_actions` says that floors direct sampling toward DERIVE. The
  mask only knows the kinds DERIVE_INFO, DERIVE_ORG, CONTINUE and FINISH, so for the kinds this agent
  offers floors and ceilings change nothing (`OrdinaryKindsPass`, `FloorsDoNotSteer`).
* A turn can raise and end the episode without an answer, because the agent looks for any legal
  candidate but then chooses among those of one node. It happens exactly when that node is not the
  root and must execute with one model call left, or waits for a child that waits on dependencies and
  has nothing to derive or acquire (`TurnRaisesIff`; `TwoDecisionsCanRaise` and `WaitingChildCanRaise`
  are runs to both cases). With no call limit and reports that name no dependencies it never happens
  (`IndependentWorkNeverRaises`). This is about the legality mask over the candidates of that node; the
  further refusals of the repository's own sampler are left out.
* A turn is cut short with runtime_action_budget_exhausted exactly when no node at all can do anything
  (`NothingLegalIff`, `GenerateNextMessage`).
* The exit for an exhausted call budget, the fallback stop and the final answer without a model call
  are never taken, and neither is the internal decision limit when it is at least 8N-6.
* The OpenAI-compatible client leaves a reservation outstanding for ever exactly when a rejection
  that is not known to be uncharged reports a negative or malformed token count (`ReplyLeaksIff`).
* A limit raised on disk while a process is up is lost at that process's next write
  (`RaiseSurvivesIff`; `RaiseCanBeLost` is a history in which it is).
* A crash after the first save of the model and before the first rollout leaves files with which no
  run starts, and so does a run with no attempts or no groups (`NothingStartsIff`,
  `NothingStartsAgain`).
* A resume with another seed, number of epochs or budget can complete a group that the update then
  rejects, now and in every later run (`CompleteGroupPassesIff`, `ResumeWithOtherBudgetRejects`). With
  another seed it can also repeat an organization seed inside the group (`SeedsNeverRepeat`,
  `ResumeWithOtherSeedRepeats`).
* The changed flag of a transition does not see a node that only moves to another parent or depth
  (`ChangedIff`, `MovedNodeIsNotSeen`).
* A capture of an environment with a service is documented as not restorable once a command may have
  touched the service. It is restorable exactly when every command so far was interrupted before its
  audit and no directory was reset (`TouchedCaptureEscapesIff`).

## Model

| member | source | states |
|---|---|---|
| OrganizationSafety.StepKeeps | research/roy_research/tau3_agent.py:201-326 | Whatever legal candidate is chosen, whatever the report says and whatever answer comes in, the step is defined (no unknown node is looked up) and keeps the whole invariant: tree shape, finished subtrees, dependency gate, forest of communications, ledgers of derived work, ceilings, outstanding acquisitions, budgets |
| OrganizationSafety.EveryRunIsSafe | research/roy_research/tau3_agent.py:218-282 | Every state of every run from the start satisfies that invariant |
| OrganizationSafety.FinishedStaysFinished | research/roy_research/tau3_agent.py:385-396 | In every run a returned node can only become pruned, a pruned one stays pruned, and all descendants of either are returned or pruned; so RETURN never reactivates a finished parent |
| OrganizationSafety.DependencyGateIsExact | research/roy_research/tau3_agent.py:363-393 | At every moment a node waits for dependencies if and only if one of its incoming edges is unresolved; edges from returned producers are resolved, and resolved edges come from returned or pruned ones |
| OrganizationSafety.OrganizationIsAcyclic | research/roy_research/tau3_agent.py:1447-1476 | No path through derivation, dependency and communication edges of a reachable state comes back |
| OrganizationSafety.NothingIsDerivedTwice | research/roy_research/tau3_agent.py:624-647 | Node count and depth stay within the ceilings of the budget and of the envelope; no two derived nodes share parent and gap, and no two share an objective fingerprint |
| OrganizationSafety.FinalAnswerHasItsCall | research/roy_research/tau3_agent.py:718-771 | With a call limit L a run makes at most L calls, keeps one until it ends, and whichever final answer is given, by choice or by truncation, has a call of its own; the branch that answers without one is never taken. A run that raises on a stranded turn ends with no answer at all |
| OrganizationBookkeeping.CountersCount | research/roy_research/tau3_agent.py:719-744 | The three counters equal the number of model calls, tool answers and decisions of the run so far, so these numbers never exceed their limits |
| OrganizationBookkeeping.ChosenTwiceOnlyAfterFailure | research/roy_research/tau3_agent.py:297-326 | If one acquisition, share or prune is chosen twice in a run, it is a tool call that failed after the first time and whose failure a user answer followed before the second |
| OrganizationBookkeeping.AnswerForgivesFailure | research/roy_research/tau3_agent.py:310-326 | The next user answer after a failed tool call makes that call available again |
| OrganizationBookkeeping.ReportsAreUpToDate | research/roy_research/tau3_agent.py:377-393 | Whatever reaches a node (a shared report, a returned child, the answer to its acquisition, a new user message), the node executes again before it counts as reported |
| OrganizationBookkeeping.ReportIsTheLatest | research/roy_research/tau3_agent.py:331-335 | A node reports what the model answered at its last execution, and a reported node has executed |
| OrganizationBookkeeping.ProposalsNameTheirNodes | research/roy_research/tau3_agent.py:352-356 | A proposal name used as a dependency stands for the node its actor last derived from that proposal, and for nothing when there is none |
| OrganizationBookkeeping.RootPursuesTheLatest | research/roy_research/tau3_agent.py:206-215 | The root pursues what the user last said without having been asked, or else its first objective |
| OrganizationBookkeeping.OccursOnceIff | research/roy_research/tau3_agent.py:407-414 | A tool counts as unambiguous if and only if exactly one position carries its name |
| OrganizationTermination.DecisionLowers | research/roy_research/tau3_agent.py:330-396 | EXECUTE, DERIVE, CONNECT, RETURN and PRUNE strictly lower the measure 8(N-n) + 2(unfinished) + 2(without incoming communication) + 2(waiting on dependencies) + (ready) + (unpruned) |
| OrganizationTermination.TurnsEndByThemselves | research/roy_research/tau3_agent.py:218-282 | With node ceiling N at most 8N-6 decisions follow one another before something goes out, for any choices and any reports |
| OrganizationDepthFirst.ControlIsDepthFirst | research/roy_research/tau3_agent.py:800-804 | With the deepest-node scheduler all ready, reported and waiting nodes lie on one root path, and each node waiting on dependencies has an unresolved producer that is pruned or itself waiting |
| OrganizationDepthFirst.ControlMoves | research/roy_research/tau3_agent.py:800-804 | A scheduled decision is taken by the lowest node of that path, or is a returned node sharing its report; DERIVE hands control to a child that may start, RETURN to the parent, anything else leaves it |
| OrganizationDepthFirst.WaitersNeverWake | research/roy_research/tau3_agent.py:894-903 | Under the scheduler a node that waits on dependencies waits for the rest of the run, and no node above it finishes |
| OrganizationDependencies.ChildGetsItsEdges | research/roy_research/tau3_agent.py:336-375 | In every run a derived child gets the place, objective and gap of its specification and exactly one edge from each node that its names stand for (a node that exists, or, for an explicit proposal naming another proposal of its report, the node last derived from that one), apart from the actor and the nodes above it; the edge is resolved if and only if that node has returned, the child waits if and only if one has not, and nothing else changes |
| OrganizationDependencies.NamesKeepOrder | research/roy_research/tau3_agent.py:875-883 | Dependencies keep the order in which they are named, a node at the place of its first name |
| OrganizationDependencies.DeriveLegalIff | research/roy_research/tau3_agent.py:745-756 | DERIVE is legal if and only if there is room under both node and both depth ceilings and every proposal that the child names has been derived before |
| OrganizationDependencies.ChildRunsIffProducersReturned | research/roy_research/tau3_agent.py:363-375 | Under the scheduler a derived child ever gets out of waiting if and only if every node that its names stand for was returned, and not pruned, when it was derived |
| OrganizationOffers.WhatIsOffered | research/roy_research/tau3_agent.py:608-716 | In every run, from statuses, reports and events alone: which node may execute, derive (work no node answers or pursues yet), ask (what it has not asked), call a tool (not called, or failed and forgiven since), return, be pruned, share (with a later running node that has been given no report), and stop |
| OrganizationOffers.LastToolIsLatest | research/roy_research/tau3_agent.py:297-308 | The call for which a failing answer is remembered is the last tool call of the run |
| OrganizationScheduler.ContextIsUnique | research/roy_research/tau3_agent.py:800-802 | Among the nodes with candidates the deepest, and of equally deep ones the last by id as a string, is one node |
| OrganizationScheduler.WhoIsTaken | research/roy_research/tau3_agent.py:800-802 | The deeper of two nodes is taken, and of equally deep ones with equally many digits the later one, but node-9 rather than node-10 |
| OrganizationScheduler.ContextIsLastActing | research/roy_research/tau3_agent.py:608-716 | That node can be read off the statuses: it is the last, in this order, of the nodes that are ready, reported, or returned and still able to share |
| OrganizationStranding.RaisesIff | research/roy_research/tau3_agent.py:233-246 | In every state that satisfies the invariant the choice raises if and only if some node is not dead and the scheduled node is not the root, has nobody to share with, and is either ready with one model call left or reported above a child that waits on dependencies with nothing to derive and nothing to acquire |
| OrganizationStranding.TurnRaisesIff | research/roy_research/tau3_agent.py:800-812 | At every moment of every scheduled run the same holds, and the scheduled node never has anyone to share with |
| OrganizationStranding.NoLimitNoWaiterNoRaise | research/roy_research/tau3_agent.py:721-724 | Without a limit on model calls and while no node waits on dependencies, something is legal whenever a decision is due, so no turn raises and none is cut short for want of a legal action |
| OrganizationStranding.NothingLegalIff | research/roy_research/tau3_agent.py:233-238 | When a decision is due, no candidate at all is legal if and only if every node is dead: ready with one model call left, reported with nothing to derive, acquire or share and with an unfinished child (for the root: with another node in play), returned with nothing to share and once pruned already, or waiting or pruned |
| OrganizationStranding.FallbackIsNotOffered | research/roy_research/tau3_agent.py:710-716 | The fallback stop is never on offer when a decision is due, because the root or the nodes in play always have a candidate |
| OrganizationStranding.IndependentWorkNeverRaises | research/roy_research/tau3_agent.py:363-375 | Without a limit on model calls and with reports that name no dependencies, no turn of any run raises and none is cut short for want of a legal action |
| OrganizationStuckRun.SomeChildNeverRuns | research/roy_research/tau3_agent.py:369-375 | A concrete scheduled run in which the producer answered, was pruned, and the child derived after it waits while the root may already stop |
| OrganizationStuckRun.TwoDecisionsCanRaise | research/roy_research/tau3_agent.py:721-724 | A concrete scheduled run with a limit of two calls that raises after two decisions: the new child must execute and may not, while the root could derive another |
| OrganizationStuckRun.WaitingChildCanRaise | research/roy_research/tau3_agent.py:757-768 | A concrete scheduled run without any limit that raises after nine decisions: the scheduled node waits for a child that waits for a pruned node |
| ExplorationEnvelope.LegalActions | research/roy_research/organization.py:98-164 | The two-pass mask equals its definition action by action, and raises exactly when it leaves nothing |
| ExplorationEnvelope.MaskRules | research/roy_research/organization.py:115-161 | Rule by rule: legality and ceilings alone without an open gap or with the floors met; otherwise no FINISH, a missing level first when one is on offer, and without a derivation only a CONTINUE that closes the gap, if any |
| ExplorationEnvelope.FloorsLeaveOnlyDerivations | research/roy_research/organization.py:140-161 | The mask adds nothing, and with a gap open and a floor unmet it leaves only derivations, at least one, if and only if a feasible derivation is offered |
| ExplorationEnvelope.OrdinaryKindsPass | research/roy_research/organization.py:122-163 | On kinds other than FINISH, CONTINUE, DERIVE_INFO and DERIVE_ORG the envelope changes nothing, which covers every kind the agent offers |
| ExplorationEnvelope.FloorsDoNotSteer | research/roy_research/organization.py:105-113 | A concrete mask with a gap open, a floor unmet and a legal DERIVE that still allows RETURN |
| OrganizationAgent.Agent.constructor | research/roy_research/tau3_agent.py:158-182 | A new agent is in the initial state |
| OrganizationAgent.Agent.IngestToolObservation | research/roy_research/tau3_agent.py:284-308 | The in-place update is the transition for a tool observation, including the backward search for the failed call |
| OrganizationAgent.Agent.IngestUserObservation | research/roy_research/tau3_agent.py:310-326 | The in-place update is the transition for a user answer, including the rebuilt list of used candidates |
| OrganizationAgent.Agent.ValidDependencyIds | research/roy_research/tau3_agent.py:864-883 | The loop over ancestors and identifiers yields each named node once, in order of naming, without the actor and the nodes above it |
| OrganizationAgent.Agent.WakeDependencyNodes | research/roy_research/tau3_agent.py:894-903 | Exactly the waiting nodes all of whose incoming edges are resolved become ready |
| OrganizationAgent.Agent.Apply | research/roy_research/tau3_agent.py:328-485 | Each action kind changes the object as its transition says and sends out what WhatGoesOut says; an ambiguous tool fails after the node has been set waiting |
| OrganizationAgent.WhatGoesOut | research/roy_research/tau3_agent.py:396-484 | A question goes out with its gap, a call with its tool when exactly one tool carries the name, a stop with the final answer, and nothing with any other choice |
| OrganizationAgent.Agent.Candidates | research/roy_research/tau3_agent.py:608-716 | The list holds exactly what is offered, and the fallback stop when that is nothing |
| OrganizationAgent.Agent.ScheduledNode | research/roy_research/tau3_agent.py:800-802 | The loop finds the node that all actors of the candidates yield to, by depth and then by id |
| OrganizationAgent.Agent.Choose | research/roy_research/tau3_agent.py:802-812 | What is chosen is offered, legal and belongs to the scheduled node; it raises if and only if that node has no legal candidate |
| OrganizationAgent.Agent.TruncateAndFinalize | research/roy_research/tau3_agent.py:580-602 | The cut-short answer uses the model while a call is left |
| OrganizationAgent.Agent.GenerateNextMessage | research/roy_research/tau3_agent.py:201-282 | One call is a piece of a scheduled run, keeps the invariant, takes at most 8N-6 decisions, is never cut short for want of model calls and, when the internal limit is at least 8N-6, never by that limit; it raises for want of an action if and only if it comes to a stranded turn, takes no decision on one, and fails for a tool if and only if it chose one whose name occurs more than once; it is cut short for want of a legal action if and only if it comes to a turn on which every node is dead with decisions left, and otherwise for the decision limit that was reached; what it answers with is what its last decision, and no earlier one, sends out; only a question or a tool call leaves the run open |
| ShortestPath.BuildAdjacency | research/roy_research/live_controlled.py:149-152 | Each list holds its node's neighbours in road order |
| ShortestPath.TwoEntriesPerRoad | research/roy_research/live_controlled.py:150-152 | The lists together hold two entries per road |
| ShortestPath.AdjustedRoads | research/roy_research/live_controlled.py:145-148 | A road is in the adjusted graph if and only if it is open and carries its weight, plus the toll on the toll road |
| ShortestPath.Relax | research/roy_research/live_controlled.py:160-164 | Offering a settled node's neighbours keeps the queue exact, with one up-to-date entry for each reached node that has not been expanded, and lowers nothing settled |
| ShortestPath.Distances | research/roy_research/live_controlled.py:153-164 | The loop ends; every distance is then the least cost over all walks, capped at 10^18; no node is expanded twice; at most one entry is pushed per direction of a road, plus the start |
| ShortestPath.NoWalkIsCheaper | research/roy_research/live_controlled.py:156-164 | Once every reached node is relaxed no walk is cheaper than the distance of its end |
| ShortestPath.ExaminedAtMostTwicePerRoad | research/roy_research/live_controlled.py:156-164 | Expanding each node at most once examines each direction of each road at most once |
| ShortestPath.ChainReaches | research/roy_research/live_controlled.py:134-148 | With the chain roads open every node is reachable, at a cost bounded by the weights |
| ShortestPath.RoutingGold | research/roy_research/live_controlled.py:145-167 | The gold answer is the exact least cost to the last node times factor plus checksum, whichever least cost is meant; the 10^18 mark never gets into it |
| GraphBatch.EdgesFromRecords | research/roy_research/model.py:211-220 | Records with both ends known become edges in their order and kind, the others are dropped, and every edge is in range |
| GraphBatch.Forward | research/roy_research/model.py:92-106 | Adding messages relation by relation into shared buffers gives each node what it receives, summed in edge order, and its degree |
| GraphLocality.LayerHears | research/roy_research/model.py:92-106 | A layer gives a node its state combined with the projected states of the sources of exactly its incoming edges, relation by relation and in edge order, and with one more than their number |
| GraphLocality.EdgeHere | research/roy_research/model.py:95-105 | One edge more gives its target, and only in that relation, the projected state of its source on top of what it had, and one degree more |
| GraphLocality.EdgeElsewhere | research/roy_research/model.py:95-105 | One edge more changes no other node |
| GraphLocality.NobodyWrites | research/roy_research/model.py:92-94 | A node without incoming edges gets its state combined with zero and one |
| GraphLocality.OnlySourcesMatter | research/roy_research/model.py:99-101 | What a node becomes does not depend on the state of any node without an edge to it |
| GraphLocality.RunSeesNeighbourhood | research/roy_research/model.py:149-150 | Through L layers a node depends on the nodes at most L edges back and on no others |
| GraphLocality.RunComposes | research/roy_research/model.py:149-150 | Layers are applied from the first to the last |
| GraphBatch.RunApart | research/roy_research/model.py:92-106 | Through any number of layers the two parts of a disjoint union with shifted edges do not see each other |
| GraphBatch.Union | research/roy_research/value_model.py:56-72 | The running offset builds the disjoint union |
| GraphBatch.PiecesAreTheirOwn | research/roy_research/value_model.py:73-78 | The slice of the union's states that belongs to a graph is what that graph has alone |
| GraphBatch.EncodeBatch | research/roy_research/organization_model.py:87-120 | Node states and pooled vector of every graph of a batch equal those of the graph alone, with the fallback when one is empty |
| GraphBatch.ForwardBatch | research/roy_research/value_model.py:45-79 | Values of a batch equal the values of the graphs alone, for any number of graphs, nodes, edges and layers |
| ValueScoring.Deduplicate | research/roy_research/lhtb_value_metrics.py:125-138 | The kept graphs have distinct keys, and each state points to the first graph with its key |
| ValueScoring.ScoreInBatches | research/roy_research/lhtb_value_metrics.py:146-153 | For every batch size the list of values is that of the graphs scored alone, in order |
| ValueScoring.PredictStates | research/roy_research/lhtb_value_metrics.py:113-154 | Each state gets the score of the first state with its key; it fails exactly without an encoder or for a batch size that is not positive |
| ValueScoring.DeduplicationIsExactIff | research/roy_research/lhtb_value_metrics.py:128-138 | Scoring with deduplication equals scoring each state alone if and only if no two states with one key score differently |
| ValueScoring.InjectiveKeysAgree | research/roy_research/lhtb_value_metrics.py:130-132 | So it is exact whenever the key tells the graphs of the list apart |
| TokenLedger.Ledger.constructor | research/roy_research/token_ledger.py:23-42 | An opened ledger holds what its file says and a new one is empty and written |
| TokenLedger.Ledger.Reserve | research/roy_research/token_ledger.py:44-54 | Reserves, or leaves the account as it was; the file then shows the account unless the amount was negative |
| TokenLedger.Ledger.Settle | research/roy_research/token_ledger.py:56-64 | Moves the charged part from reserved to used, frees the rest and writes the file, or changes nothing |
| TokenLedger.Ledger.Release | research/roy_research/token_ledger.py:66-73 | Frees a reservation and writes the file, or changes nothing |
| TokenLedger.BookingFailsIff | research/roy_research/providers.py:398-419 | Booking a reply fails if and only if it is a rejection, not known to be uncharged, whose reported usage is negative or no number; otherwise it frees the whole reservation and charges at most as much |
| TokenLedger.NegativeUsageLeaks | research/roy_research/providers.py:411-417 | A concrete reply of that kind, whose reservation stays outstanding |
| TokenLedger.Book | research/roy_research/providers.py:398-419 | The settle-once flag and the branches of the error handler charge each reply what it costs, status code by status code: a completion its reported tokens up to the reservation, a refused request nothing, a lost connection the whole reservation |
| TokenLedger.ChargeIsCost | research/roy_research/providers.py:118-153 | A reply has such a cost if and only if it can be settled, and then the charge is that cost |
| TokenLedger.AfterEachReply | research/roy_research/providers.py:154-196 | Which replies end a call at once with which error, and which end it after the last attempt only |
| TokenLedger.ReserveThenSettle | research/roy_research/token_ledger.py:44-73 | A reservation succeeds if and only if it fits; releasing it restores the account and settling it charges exactly the amount given, which must lie between zero and the reservation |
| TokenLedger.RaiseThenOpen | research/roy_research/token_ledger.py:81-101 | A file within its limit can be raised exactly to limits no lower, and then opens with the new limit only and is otherwise unchanged |
| TokenLedger.Complete | research/roy_research/providers.py:356-472 | A call, with whatever other clients of the same ledger do before each of its steps, is a piece of a history of the shared account, from its beginning to the outcome and charge it ends with; it leaves nothing reserved for it unless its settlement raised, charges exactly the sum of what its replies cost and at most (retries+1) reservations, goes on exactly after the replies that allow another attempt, and with quiet others changes the account by exactly its charge |
| TokenLedger.Perform | research/roy_research/token_ledger.py:44-73 | Carrying out any event of any client on the shared ledger object changes object, file and calls as the step of a history does |
| TokenLedger.EveryHistoryBalances | research/roy_research/token_ledger.py:22-101 | For every interleaving of calls, replies, crashes, openings with any limit and limits raised on disk: in file and memory used plus reserved never exceeds the limit, reserved is exactly what calls in flight, calls lost in flight and failed settlements hold, used is exactly what was charged |
| TokenLedger.ReplyLeaksIff | research/roy_research/providers.py:356-419 | In every history a reply leaves its reservation outstanding if and only if it is unsettleable in that sense |
| TokenLedger.RaiseSurvivesIff | research/roy_research/token_ledger.py:81-101 | A limit raised on disk while a process is up can be opened with later if and only if that process has written nothing since |
| TokenLedger.RaiseCanBeLost | research/roy_research/token_ledger.py:81-101 | A concrete history in which a limit raised from 100 to 200 is gone after the next reservation, and the file cannot be opened with 200 |
| OnPolicyTraining.SeedsNeverRepeat | research/roy_research/tau3_runner.py:97-107 | In a log in order two records of a group have different slot numbers (attempt times eight plus index), and each organization seed is the environment seed plus one plus the slot number, and two are equal if and only if the environment seeds differ by just that distance the other way round; so for one environment seed no seed occurs twice |
| OnPolicyTraining.ResumeWithOtherSeedRepeats | research/roy_research/tau3_runner.py:97-107 | A concrete log in order of two accepted rollouts of one group, collected with different environment seeds and one organization seed |
| OnPolicyTraining.EightAreZeroToSeven | research/roy_research/tau3_runner.py:90-95 | A group never has more than eight accepted rollouts, no two share an index, and eight of them are the indices 0 to 7 |
| OnPolicyTraining.WhatTheFilesGuarantee | research/roy_research/tau3_runner.py:69-184 | A slot is filled at most once, seeds repeat in a group only where different environment seeds make up for the slots, each group in the weights is there once, with all eight rollouts, collected under one set of conditions, and a marked group is in the weights if and only if its utilities vary |
| OnPolicyTraining.NothingStartsIff | research/roy_research/tau3_runner.py:49-54 | A run starts on both files or none, on both only to resume; so neither mode starts if and only if there is a model file and no log |
| OnPolicyTraining.NothingStartsAgain | research/roy_research/tau3_runner.py:64-68 | A run that dies after the first save, or is given no attempts or no groups, leaves a model without a log, and no later run with any arguments starts |
| OnPolicyTraining.CompleteGroupPassesIff | research/roy_research/organization_replay.py:72-108 | The eight accepted rollouts of a group that is not marked pass all checks of the update if and only if they share environment seed, envelope, snapshot and budget |
| OnPolicyTraining.WhyNotStarted | research/roy_research/tau3_runner.py:49-54 | Whatever the files, a resume needs both or neither, and a fresh run is refused first for a log and then for a model |
| OnPolicyTraining.WhichErrorWins | research/roy_research/organization_replay.py:73-108 | When several checks fail the error is that of the first: group, mark, truncation, envelope, indices, seed, snapshot, budget |
| OnPolicyTraining.PassesIff | research/roy_research/organization_replay.py:72-108 | Whatever the records, the update accepts them if and only if they are eight accepted rollouts of one unmarked group with eight different indices and one set of conditions, and have decisions when their utilities vary |
| OnPolicyTraining.DifferentUtilitiesVary | research/roy_research/organization_replay.py:113-119 | Eight equal utilities teach nothing, and two of eight that are more than 4e-8 apart do |
| OnPolicyTraining.ThresholdIsExact | research/roy_research/organization_replay.py:113-119 | Four utilities h above and four h below their mean count as varied if and only if h exceeds 1e-8 |
| OnPolicyTraining.MixedGroupStaysRejected | research/roy_research/tau3_runner.py:173-184 | A group completed under different conditions stays as it is and is rejected after every further rollout |
| OnPolicyTraining.ResumeWithOtherBudgetRejects | research/roy_research/organization_replay.py:105-108 | A concrete log in order whose last rollout a resume collected with another budget, and whose group is rejected |
| OnPolicyTraining.SameArgumentsNeverRaise | research/roy_research/tau3_runner.py:86-92 | When all lines were collected with the same arguments, every group has one set of conditions |
| OnPolicyTraining.UpdateKeepsModel | research/roy_research/organization_replay.py:119-164 | Either kind of update keeps the model file in order: marks, applied groups and counters go on agreeing with the log |
| OnPolicyTraining.Trainer.constructor | research/roy_research/organization_replay.py:47-70 | A resumed trainer holds what the model file says, any other starts fresh |
| OnPolicyTraining.Trainer.UpdateGroup | research/roy_research/organization_replay.py:72-169 | The update fails exactly on a rejected group, with the first error in order and changing nothing; otherwise the group is marked, applied if its utilities vary, and the file agrees with the memory unless the process died first |
| OnPolicyTraining.Run.ReadLog | research/roy_research/tau3_runner.py:69-78 | The tables rebuilt from the log hold its accepted rollouts and its attempts |
| OnPolicyTraining.Run.Attempt | research/roy_research/tau3_runner.py:96-172 | An attempt keeps the files in order even if the process dies around the append, and fills its slot if and only if it was accepted; other slots and other groups are left alone |
| OnPolicyTraining.Run.Collect | research/roy_research/tau3_runner.py:93-161 | Unless the process dies, each of the eight slots that was open is filled after one to maxAttempts new lines or has exactly maxAttempts new lines, and a filled slot gets none |
| OnPolicyTraining.Run.TrainGroup | research/roy_research/tau3_runner.py:87-184 | Collecting and updating a group keeps the files in order wherever it dies, only appends to the log, and raises if and only if the group is complete, not marked and was collected under different conditions; if it neither raises nor dies, a complete group is marked, marks are never taken back, and every open slot was tried as Collect says |
| OnPolicyTraining.Run.TrainPlan | research/roy_research/tau3_runner.py:83-184 | Going through the groups of all epochs keeps the files in order; it ends early only at a death or at a group collected under different conditions, and otherwise every complete group of the plan is marked in the saved model, and every open slot of every group was tried up to maxAttempts times for each time the group occurs in the plan, and no other |
| OnPolicyTraining.Train | research/roy_research/tau3_runner.py:49-194 | A whole program run, fresh or resumed, with any arguments, keeps the files in order wherever it dies, only appends to the log, starts exactly under the stated conditions, and raises only at a group collected under different conditions; when it finishes, every complete group of its plan is marked in the saved model and every open slot of the plan was filled or tried maxAttempts times |
| OnPolicyTraining.Campaign | research/roy_research/tau3_runner.py:29-205 | Any number of runs, each with its own arguments and dying wherever it likes, starting from no files, leaves files in order; with the same conditions in all runs none raises |
| Midranks.Ranks | research/roy_research/lhtb_nodewise.py:857-869 | Each value gets the number of smaller values plus half the number of other equal ones |
| Midranks.BlockCounts | research/roy_research/lhtb_nodewise.py:861-868 | A maximal block of equal values in sorted order shows both counts |
| Midranks.MidranksKeepOrder | research/roy_research/lhtb_nodewise.py:865-867 | Ranks order the values as the values are ordered, and agree exactly on equal ones |
| Midranks.RanksSum | research/roy_research/lhtb_nodewise.py:873-874 | With or without ties the ranks of n values sum to n(n-1)/2 |
| PolicyLoss.SingleObjectiveLoss | research/roy_research/organization_training.py:57-76 | The list of objectives averages to minus the mean over trajectories of the mean over decisions, with the three error cases exact |
| PolicyLoss.ContributionIsClipped | research/roy_research/organization_training.py:72-75 | A decision with a non-negative advantage contributes ratio times advantage up to the ratio 1+epsilon and that bound times the advantage beyond; with a negative one, ratio times advantage down to the ratio 1-epsilon and that bound times the advantage below |
| PolicyLoss.LossOfOneDecision | research/roy_research/organization_training.py:72-76 | The loss of a single decision is minus that contribution |
| PolicyLoss.EveryDecisionWeighs | research/roy_research/organization_training.py:72-76 | Changing one log-probability changes the loss by minus the change of that contribution, divided by the length of its trajectory and by the number of trajectories |
| PolicyLoss.OnPolicyMeans | research/roy_research/organization_training.py:72-76 | While the policy is the recorded one the loss is minus the mean advantage, however long the trajectories are |
| PolicyLoss.LossIsBounded | research/roy_research/organization_training.py:72-76 | With non-negative advantages the loss is never below minus (1+epsilon) times their mean |
| PolicyLoss.OneMoreReplayed | research/roy_research/lhtb_training.py:119-134 | One decision more adds its clipped contribution, for the log-probability it has when replayed alone |
| PolicyLoss.ReplayBatch | research/roy_research/organization_replay.py:308-351 | Replaying a microbatch in one pass over the union of its graphs gives each decision the log-probability it has when replayed alone, and fails exactly when a recorded choice is not available |
| PolicyLoss.TrajectoryLoss | research/roy_research/lhtb_training.py:119-134 | Whatever the microbatch size, the accumulated share of a trajectory is its scaled surrogate sum, and it fails exactly when a recorded choice is not available |
| PolicyLoss.AccumulatedLoss | research/roy_research/lhtb_training.py:106-137 | For every microbatch size the accumulated loss equals that same reference loss of the decisions replayed one at a time; it fails exactly when a trajectory is empty or has a choice that is not available, and says which came first |
| PolicyLoss.SurrogateSumSplits | research/roy_research/lhtb_training.py:119-134 | Cutting a trajectory into batches does not change its surrogate sum |
| TopologyDelta.DeltaConnects | research/roy_research/lhtb_transitions.py:40-75 | A recorded change leads from the statuses and edge states before to those after, and back |
| TopologyDelta.ViewShows | research/roy_research/lhtb_transitions.py:40-60 | The view that a change leads between shows the status of the last node with each id and the state of the last edge with each kind, source, target and artifact |
| TopologyDelta.ChangedIff | research/roy_research/lhtb_transitions.py:193-197 | The changed flag is set if and only if statuses or edge states differ |
| TopologyDelta.MovedNodeIsNotSeen | research/roy_research/lhtb_transitions.py:47-52 | Two concrete snapshots between which a node moves to another parent and depth without being reported |
| TopologyDelta.BuildDeltas | research/roy_research/lhtb_transitions.py:97-98 | One change for each pair of consecutive snapshots, none for fewer than two |
| TopologyDelta.ReplayReproduces | research/roy_research/lhtb_transitions.py:78-127 | From the first snapshot and the recorded changes the last one is reproduced, and changes of node count, edge count and maximum depth add up |
| TopologyDelta.CountsMatchIff | research/roy_research/lhtb_transitions.py:66-73 | The node-count change is added minus removed nodes if and only if both snapshots repeat ids equally often |
| TopologyDelta.ProcessCredit | research/roy_research/value_model.py:131-147 | For every trajectory of the group rewards telescope to the terminal reward minus the first value and each return is the sum of the rewards to come, so the final check never fires; both error cases are exact |
| NativeCheckpoint.Environment.Exec | research/roy_research/native_environment.py:959-1006 | A command may change everything; only one that was not interrupted is audited |
| NativeCheckpoint.Environment.ResetDirs | research/roy_research/native_environment.py:734-774 | A reset may change the directories and is audited, but does not touch the service |
| NativeCheckpoint.Environment.CreateTrainingCheckpoint | research/roy_research/native_environment.py:214-300 | The copying loop captures exactly the regular content of the existing directories; a running command, a taken target or one inside the session is refused, unless a matching checkpoint is to be reused |
| NativeCheckpoint.Environment.RestoreTrainingCheckpoint | research/roy_research/native_environment.py:302-353 | A refused restore changes nothing; an accepted one replaces exactly the listed directories; one that stops half-way leaves those before the failing name replaced and the later ones untouched, and the directory that the payload lacks is gone |
| NativeCheckpoint.RestoreIsFaithful | research/roy_research/native_environment.py:214-353 | After any history another environment of the template accepts the capture if and only if it is at a restore boundary and there is no service or nothing was audited before the capture, whatever ran in a service-free environment; the payload is the regular content at capture |
| NativeCheckpoint.EveryCheckCounts | research/roy_research/native_environment.py:321-343 | An acceptable checkpoint is refused, with the error of that check, as soon as its completeness, mode, task, environment, services, service state or payload digest is changed |
| NativeCheckpoint.ReuseIff | research/roy_research/native_environment.py:228-250 | A capture is reused under its own fingerprint by an environment of its template, and not once any of what identifies it differs |
| NativeCheckpoint.CaptureAndRestore | research/roy_research/native_environment.py:214-353 | End to end, a restore is accepted exactly at a boundary as above and makes all seven directories equal to what they were, special files apart, and the service too unless a command escaped the audit |
| NativeCheckpoint.TouchedCaptureEscapesIff | research/roy_research/native_environment.py:270-294 | A capture taken after commands ran beside a service is acceptable to some environment of the template if and only if no command reached its audit and nothing was reset |
| NativeCheckpoint.InterruptedCommandEscapes | research/roy_research/native_environment.py:970-1006 | A concrete history in which an accepted capture does not hold the service state |
| NativeCheckpoint.AcceptedServiceIsInitial | research/roy_research/native_environment.py:270-294 | Outside that case the service of an accepted capture is the initial one |

## Left out

- Prompts, parsing and normalisation of reports, and the wording of messages: a report is an arbitrary list of child specifications, questions and tools.
- The sampler, softmax, optimizers, gradients and floating point: a choice is any legal candidate of the scheduled node. The sampler's own refusals are left out: of a policy state without context_node, of two candidates of one kind (research/roy_research/organization_replay.py:386-397), and of action kinds it does not know (research/roy_research/organization_model.py:163-166). Learned maps are arbitrary functions, numbers of losses, values and ranks are reals.
- OrganizationAgent.Agent.GenerateNextMessage: several tool messages in one turn, and tool or user messages while nothing of the kind is outstanding, are not modelled: the agent sends one tool call at a time (research/roy_research/tau3_agent.py:454-477), and the environment is taken to answer each acquisition once.
- The cache of the text encoder, and scalar features of nodes beyond their being some function of the node.
- ShortestPath.RoutingGold: the random problem is an input, with positive weights, open chain roads and costs below 10^18; the inner order of heapq is not modelled, only that a least entry comes out.
- The polynomial problems next to the routing problems: a single Horner loop.
- TopologyDelta.DeltaOf: the lists of a change are maps by id and by edge key, so their sorted order is not modelled.
- TokenLedger.Complete: waiting times between attempts, the event log and context-window trimming are not modelled; ledger operations are atomic, and one process at a time has a ledger file open.
- OnPolicyTraining.Trainer.UpdateGroup: the checks of benchmark, split and terminal flag, which every record of this program passes, and the other fields of a record are not modelled; appends and saves are atomic, and seeds of different groups are unrelated.
- NativeCheckpoint.Environment.RestoreTrainingCheckpoint: ownership and permissions after a restore, files that vanish during the copy, users, signals and the process sandbox are not modelled; the digest of a payload is an arbitrary function of it.
- Midranks.SortedOrder: the order among equal values is not specified, because ranks do not depend on it.
- The remote token proxy, evaluation, reports, command line, split manifests and the TypeScript runtime.
