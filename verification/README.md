# AgentCheck in Dafny

A model of the parts of AgentCheck that decide something from data, without running a
target, with proofs of what those decisions guarantee. `dafny verify dfyconfig.toml`
verifies all of it.

## What is modelled

**Coverage and obligations** (`agentcheck/coverage`). Requirements are derived from a spec
and a reference suite by joining contributions (`Seeds`, `SeedFacts`, `RiskFacts`, `OrderFacts`).
Fixtures and faults predict what each simulated tool call will see, by a greedy selection
within a call budget and a wall-clock budget that stops at a tie (`Trace`, `TraceFacts`).
Each requirement is scored over the executed scenarios (`Outcomes`, `OutcomeFacts`), the
scores become a report, and the report is derived again to verify it (`Coverage`,
`CoverageFacts`). Declared risk becomes obligations that the release gate enforces
(`Obligations`). JSON values carry the host language's equality, in which true, 1 and 1.0
are equal and the order of dictionary entries does not matter (`Json`).

**Release decision** (`agentcheck/baseline`, `agentcheck/gate.py`). Cases of a run are
matched with those of a baseline by fingerprint and then by scenario, classified, and
turned into an exit code and a gate answer (`Compare`, `CompareFacts`, `Gate`), which also
asks for evidence of every declared risk (`Release`).

**Adapters.** A bounded breadth-first search over a cyclic heap of agents and the two-pass
clone of what it finds, with the checks of names before it (`HandoffGraph`,
`HandoffGraphFacts`, `HandoffNames`, `HandoffClone`); scans of
output declarations and compiled schemas over shared, cyclic object graphs (`OutputScan`,
`SchemaScan`); a symbolic evaluator of handoff callbacks with a reference semantics beside
it (`HandoffEffects`, `HandoffEffectsFacts`); the schema-to-instance generator of the
controlled models, twice as in the repository (`ControlledModel`, `ControlledModelFacts`,
`OneOfFacts`, `PydanticControlled`); the custom adapter from its arguments through the turn
loop and the evidence it records to the contract of the run (`CustomRun`, `CustomDriver`,
`CustomIntegrity`, `CustomAdapter`).

**Sanitizers** (`redaction.py`, `privacy.py`, and the analyzer's own projection). Recursions
over trees with shared node and character budgets (`Projection`, `Sanitize`), and the test
for sensitive keys (`Keys`).

`Bags` and `Text` hold what the rest needs about sequences, sorting and code-point order.
`Domain` declares scenarios, fixtures, faults and specs.

What code outside of the model decides enters as a parameter, so that every theorem holds
whatever it answers: text redaction and the test for secret-shaped text (`Cleaner`,
`Environment`), schema validation (`Validator`), hashes and fingerprints (plain strings
carried by the data), case folding, the printing of integers and of JSON values, the
behaviour of the agent and of the tool gateway in each stage of a run.

## Where a promise does not hold as stated

Each of these keeps the code as it is and gives the exact condition.

- Requirements do not depend on the order of the reference suite, except when two
  different prerequisite relations render to one subject: a tool may itself be named
  like `a->tool:b`. `SeedFacts.OrderIrrelevantExactly` says exactly when,
  `OrderFacts.OrderCanMatter` gives two scenarios that the scenario contract accepts,
  `OrderFacts.VerificationOrderMatters` shows what a user sees of it: verification refuses
  the report of the same suite listed in the other order.
  `SeedFacts.PlainNamesDoNotCollide` is a simple sufficient condition on names. The
  theorems about permuted references carry the condition.
- The documentation of the callback analysis says that it proves what the callback
  assigns. It looks for a shadowed `randint` provider only among the locals assigned so far, while a
  name assigned anywhere in a function is local everywhere in it, and so is the parameter.
  `HandoffEffectsFacts.AcceptedCallback` is the exact condition;
  `HandoffEffectsFacts.LaterRebindingIsMissed` and
  `HandoffEffectsFacts.ParameterShadowingIsMissed` are instances in which the analysis accepts
  a callback that raises.
- The instance generator is documented to satisfy the schema. It treats `oneOf` as `anyOf`.
  Where every option names types, by itself or through references, `OneOfFacts.OneOfExactly`
  says exactly when that is right: when the declared type of the first option with a type
  beside null overlaps no type that another option names.
  `OneOfFacts.OneOfCanFail` is a schema for which it is not, `OneOfFacts.DisjointKindsSuffice`
  a condition that suffices for all schemas of the promise.
- A run of the custom adapter ends in its own contract, which rejects the run unless the
  gateway reports every transition it cited to the agent, once: `CustomAdapter.Run` returns
  the run exactly then (`CustomIntegrity.IntegrityExactly`), and
  `CustomAdapter.UnreportedCitation` is a run that goes to its end and is rejected.

## Model

| member | source | states |
|---|---|---|
| Json.EqualSymmetric | agentcheck/coverage/analyzer.py:992-1000 | equality of well-formed JSON values is symmetric, through nested lists and dictionaries |
| Json.EqualTransitive | agentcheck/coverage/analyzer.py:992-1000 | equality of JSON values is transitive |
| Json.SubsetReflexive | agentcheck/coverage/analyzer.py:992-1000 | every value is a pattern of itself |
| Json.SubsetTransitive | agentcheck/coverage/analyzer.py:992-1000 | containment of argument patterns is transitive |
| Json.SubsetAntisymmetric | agentcheck/coverage/analyzer.py:992-1000 | patterns contained in each other are exactly the equal ones: containment is a partial order |
| Json.SpecificityMonotone | agentcheck/coverage/analyzer.py:1003-1008 | a contained pattern scores no higher, and equally only if it is equal |
| Json.StrictlyMoreGeneral | agentcheck/coverage/analyzer.py:1003-1008 | a strictly more general pattern scores strictly lower |
| Trace.CollectCandidates | agentcheck/coverage/analyzer.py:1049-1062 | the loop gathers exactly the unused slots that fit the call index and the arguments |
| Trace.PickBest | agentcheck/coverage/analyzer.py:1049-1069 | the slot consumed is the one best slot of the unused bag, none when the best score is tied, and consuming it removes exactly its content |
| Trace.SelectLoop | agentcheck/coverage/analyzer.py:1044-1085 | the loop over budgets selects what the bag of slots determines, no slot twice |
| Trace.SelectedTrace | agentcheck/coverage/analyzer.py:1025-1085 | the predicted outcomes are a function of the bag of controlled slots, are slots of the called tool, and use no position twice |
| Trace.BestIsWinner | agentcheck/coverage/analyzer.py:1059-1069 | a single candidate at the best score beats every other matching slot, and a tie has no winner |
| Trace.SlotsPermuted | agentcheck/coverage/analyzer.py:932-989 | reordering fixtures and faults only reorders the slots of a tool |
| TraceFacts.TracePermuted | agentcheck/coverage/analyzer.py:1025-1085 | the order in which fixtures and faults are listed never changes a trace |
| TraceFacts.TracePrefix | agentcheck/coverage/analyzer.py:1025-1085 | the trace of fewer calls is a prefix of the trace of more |
| TraceFacts.TraceBounds | agentcheck/coverage/analyzer.py:1036-1085 | a trace stays within the call and wall-clock budgets, uses each slot at most once, and only its last slot may have state effects |
| TraceFacts.MostSpecificSelected | agentcheck/coverage/analyzer.py:1049-1069 | with equal priority and explicitness, no unused matching fixture is strictly more specific than the one selected |
| Outcomes.Best | agentcheck/coverage/analyzer.py:1186-1193 | covered exactly when some candidate is, missing exactly when there is none; the least reason and all evidence of the best candidates |
| Outcomes.BestPermuted | agentcheck/coverage/analyzer.py:1186-1193 | the best outcome does not depend on the order of the candidates |
| OutcomeFacts.CandidateExact | agentcheck/coverage/analyzer.py:1196-2235 | for each of the twelve dimensions, a scenario yields a covered candidate exactly when it demonstrates the requirement (an authoritative oracle and a controlled outcome of the right kind on an action it binds), and any candidate exactly when it touches it |
| OutcomeFacts.StatusExact | agentcheck/coverage/analyzer.py:2148-2235 | an applicable requirement is covered exactly when some scenario demonstrates it and missing exactly when none touches it |
| OutcomeFacts.MoreScenarios | agentcheck/coverage/analyzer.py:2148-2235 | adding scenarios never loses coverage, never creates a missing requirement, and changes no undecided or unsupported one |
| OutcomeFacts.EvaluatePermuted | agentcheck/coverage/analyzer.py:2148-2235 | the outcome of a requirement does not depend on the order of the scenarios |
| Seeds.SeedTable.Add | agentcheck/coverage/analyzer.py:388-409 | one contribution: a new key is inserted, a stronger applicability replaces, nothing else changes |
| Seeds.SeedTable.AddAll | agentcheck/coverage/analyzer.py:696-929 | the contributions of a spec or a suite are added one by one |
| SeedFacts.SpecOrderIrrelevant | agentcheck/coverage/analyzer.py:696-793 | reading the tools and policies of a spec in another order, such as sorted, gives the same table |
| Seeds.FoldIsJoin | agentcheck/coverage/analyzer.py:388-409 | after all contributions a key holds the first of the strongest ones |
| Seeds.TableStrongest | agentcheck/coverage/analyzer.py:388-409 | a requirement exists exactly when something contributes to it, and is one of its strongest contributions |
| Seeds.JoinPermuted | agentcheck/coverage/analyzer.py:388-409 | the applicability of a requirement is the join of its contributions, whatever their order |
| SeedFacts.SeedsOfAre | agentcheck/coverage/analyzer.py:812-929 | every contribution of a scenario comes from an output rule, a trajectory rule, a confirmation rule or a prerequisite pair |
| SeedFacts.SubjectBinding | agentcheck/coverage/analyzer.py:135-140 | outside of prerequisites, equal subjects are bound to equal tools |
| SeedFacts.ApplicabilityOrderIrrelevant | agentcheck/coverage/analyzer.py:388-409 | reordering the reference changes neither which requirements there are nor their applicability |
| SeedFacts.OrderIrrelevantExactly | agentcheck/coverage/analyzer.py:388-409 | the whole table is independent of the order exactly when no two prerequisite relations share a subject |
| OrderFacts.OrderCanMatter | agentcheck/coverage/analyzer.py:139-140 | two scenarios within the scenario contract whose relations share a subject give two tables when read in two orders |
| OrderFacts.ReorderedReferenceRefused | agentcheck/coverage/analyzer.py:2453-2560 | of any two scenarios with colliding relations, verification accepts the report with the suite in its own order and refuses it in the other |
| OrderFacts.VerificationOrderMatters | agentcheck/coverage/analyzer.py:2453-2560 | the same for the two scenarios above: a report is refused because the suite was listed in another order |
| SeedFacts.PlainNamesDoNotCollide | agentcheck/coverage/analyzer.py:139-140 | relations do not collide when no prerequisite's name contains the rendered arrow |
| RiskFacts.SpecContribution | agentcheck/coverage/analyzer.py:485-552 | what a spec contributes to a risk dimension: its tool's gate, and its policies by their authority |
| RiskFacts.RiskRequirement | agentcheck/coverage/analyzer.py:388-409 | a risk requirement exists with any contribution and is applicable exactly with an applicable one |
| RiskFacts.InferredRiskNotLaundered | agentcheck/coverage/analyzer.py:796-929 | inferred risk becomes applicable exactly by the declared group, an authoritative policy, or a scenario not generated from inferred risk |
| RiskFacts.UndecidedRiskIsListed | agentcheck/coverage/analyzer.py:696-793 | a risk that is not authoritatively excluded is always listed |
| CoverageFacts.FamilyIsValid | agentcheck/coverage/contract.py:53-129 | every family built satisfies its contract: rows in ascending order, distinct and bounded, evidence ascending, distinct and bounded, visible plus omitted is the total, no status shown more often than counted |
| CoverageFacts.UnboundIsUndecided | agentcheck/coverage/analyzer.py:2352-2375 | a requirement with an ambiguous or lossy name is never covered or missing, and every other is judged as derived |
| CoverageFacts.SelectionCannotHide | agentcheck/coverage/analyzer.py:2300-2397 | with one reference, running more scenarios keeps every applicable, unknown and unsupported total, covers no less and misses no more |
| CoverageFacts.SameScenarios | agentcheck/coverage/analyzer.py:2284-2297 | suites with equal identities are permutations of each other when identities bind |
| CoverageFacts.VerifyExactly | agentcheck/coverage/analyzer.py:2453-2560 | with a reference suite, verification accepts a report exactly when analysis of these sources accepts and yields that very report |
| CoverageFacts.VerifyWholeExactly | agentcheck/coverage/analyzer.py:2453-2560 | without a reference suite, the same for a report that counts its scenarios as the whole suite |
| CoverageFacts.VerifyAcceptsGivenReference | agentcheck/coverage/analyzer.py:2453-2560 | verification finds no mismatch in a report of the analysis, for the same or a permuted reference, with and without the suite fingerprint |
| CoverageFacts.VerifyAcceptsWithoutReference | agentcheck/coverage/analyzer.py:2453-2560 | without a reference at verification, reports of whole and of selected suites are accepted too, with and without the suite fingerprint |
| CoverageFacts.WholeSuiteRederives | agentcheck/coverage/analyzer.py:2300-2397 | analysing a permuted whole suite again reproduces the report |
| Obligations.UnmetObligations | agentcheck/coverage/analyzer.py:639-693 | the unmet obligations are exactly the declared pairs whose own evaluation is neither covered nor partly covered |
| Obligations.ListedExactly | agentcheck/coverage/analyzer.py:639-693 | the listing holds exactly the unmet pairs, each with the reason that no case touches its dimension |
| Obligations.ListingAscends | agentcheck/coverage/analyzer.py:692-693 | the listing ascends by tool and dimension name |
| Obligations.UnmetIsMissing | agentcheck/coverage/analyzer.py:639-693 | an obligation is unmet exactly when its requirement is missing |
| Obligations.UnmetAntitone | agentcheck/coverage/analyzer.py:639-693 | more scenarios never create an unmet obligation |
| Obligations.UnmetPermuted | agentcheck/coverage/analyzer.py:639-693 | the order of the scenarios is irrelevant to obligations |
| Obligations.NothingUnmet | agentcheck/coverage/analyzer.py:555-693 | nothing is unmet exactly when every declared risk is touched by some scenario |
| Obligations.ObligedRequirement | agentcheck/coverage/analyzer.py:555-627 | for a cleanly bound tool the report has the requirement an obligation demands, applicable |
| Obligations.ObligationsAgreeWithReport | agentcheck/coverage/analyzer.py:639-693 | for a cleanly bound tool the obligation is unmet exactly when the report's own requirement is missing |
| Compare.ByFingerprint | agentcheck/baseline/compare.py:146-147 | the lookup holds every case under its fingerprint, and nothing else |
| Compare.Leftover | agentcheck/baseline/compare.py:160-169 | per scenario, the last of the cases whose fingerprint is not used |
| Compare.MatchFingerprints | agentcheck/baseline/compare.py:152-158 | the first stage joins exactly the cases with a common fingerprint, each once |
| Compare.MatchScenarios | agentcheck/baseline/compare.py:160-175 | after the second stage, cases are joined exactly when they share a fingerprint or are the latest leftovers of one scenario |
| Compare.ComparisonItems | agentcheck/baseline/compare.py:142-192 | every case of either side is in exactly one item, cases share an item exactly when paired, and items are in report order |
| CompareFacts.CategoryExactly | agentcheck/baseline/compare.py:226-265 | each category in terms of the verdicts, signatures and fingerprints of the match, whatever the order of the tests |
| CompareFacts.ReportBalances | agentcheck/baseline/compare.py:64-119 | without infrastructure errors, the run's failures plus resolved, removed and undecided known failures equal the baseline's failures plus new regressions |
| Gate.GateExitCode | agentcheck/baseline/compare.py:54-61 | code 2 exactly with a certification failure, code 0 exactly with neither that nor a blocking item |
| Gate.OncePerCase | agentcheck/baseline/compare.py:142-192 | a case of either side occurs in one match only |
| Gate.ReportedOnce | agentcheck/baseline/compare.py:195-223 | no two items are reported under the same fingerprint |
| Gate.CertifiableExactly | agentcheck/baseline/compare.py:226-265 | no certification failure exactly when no current or matched case is an infrastructure error and failing pairs are signed |
| Gate.QuietExactly | agentcheck/baseline/compare.py:226-265 | nothing blocks exactly when the run is certifiable and every current failure is matched to a failure with an equal, present signature |
| Gate.NoMoreFailures | agentcheck/baseline/compare.py:226-265 | an accepted run has no more failures than its baseline |
| Gate.CheckBaseline | agentcheck/baseline/compare.py:31-61 | the exit code of the whole comparison, in terms of the two lists of cases |
| Gate.RunGate | agentcheck/gate.py:225-438 | when each exit code is answered; PASS exactly with a certifiable run, no unknown failure, no inconclusive case and no unmet obligation |
| Release.GateSuite | agentcheck/gate.py:225-438 | a suite passes only if some scenario touches every declared risk, whatever the baseline knows; a risk no scenario touches makes an otherwise passing run inconclusive |
| Release.EvidenceKept | agentcheck/coverage/analyzer.py:639-693 | running more scenarios never takes the evidence for a declared risk away |
| Gate.PassWithoutBaseline | agentcheck/gate.py:286-360 | a PASS without a baseline means that every executed case passed |
| Gate.OwnBaselineAccepted | agentcheck/baseline/compare.py:142-265 | a certifiable run compared with itself is accepted |
| HandoffGraph.ScanEntries | agentcheck/adapters/openai_agents.py:497-520 | the inner pass handles every entry of an agent once: its destination is listed next to it or refused by a full list |
| HandoffGraph.ScanEntry | agentcheck/adapters/openai_agents.py:498-520 | one entry: its destination is known, refused by a full list, or listed at the end of it |
| HandoffGraph.ReachableGraph | agentcheck/adapters/openai_agents.py:482-526 | the search ends on cyclic graphs, lists distinct agents where their locations lead, scans every listed agent, and its edges are all their entries in order |
| HandoffGraphFacts.ListsAllReachable | agentcheck/adapters/openai_agents.py:482-526 | without an issue, whatever a route leads to is listed |
| HandoffGraphFacts.BoundExactly | agentcheck/adapters/openai_agents.py:504-517 | the list is the set of reachable agents exactly when there are at most sixteen; otherwise there is exactly one issue |
| HandoffGraphFacts.ShortestRoutes | agentcheck/adapters/openai_agents.py:482-526 | every listed agent is located by a shortest route, even when the bound cuts the search |
| HandoffGraphFacts.EachEntryOnce | agentcheck/adapters/openai_agents.py:529-533 | grouping the edges by agent gives back each listed agent's entries, once and in order |
| HandoffNames.CheckNames | agentcheck/adapters/openai_agents.py:2551-2636 | the checks over agents pass exactly when none has a problem, names of agents differ, a tool name has one contract, and handoff names collide neither on one agent nor with any tool |
| HandoffClone.CloneAgents | agentcheck/adapters/openai_agents.py:2785-2809 | pass one: one fresh clone for each agent, with fresh tools of the same names and contracts and no handoffs |
| HandoffClone.WireHandoffs | agentcheck/adapters/openai_agents.py:2811-2857 | pass two: each clone has the handoffs of its original's edges, in order, to the clones of the destinations |
| HandoffClone.IssuesExactly | agentcheck/adapters/openai_agents.py:2546-2549 | the issues found along the edges are those of the reachable agents' handoffs |
| HandoffClone.Preflight | agentcheck/adapters/openai_agents.py:2545-2637 | supported exactly with at most sixteen reachable agents, no problem of an agent, no untrusted handoff and no ambiguous name |
| HandoffClone.NamesIdentify | agentcheck/adapters/openai_agents.py:2610-2636 | in a graph that preflight lets pass, the names of an agent and of a handoff identify the handoff |
| HandoffClone.RecordTargets | agentcheck/adapters/openai_agents.py:2818-2857 | the table of handoff targets tells for every edge where it leads, none is overwritten |
| HandoffClone.Prepare | agentcheck/adapters/openai_agents.py:2741-2867 | refused exactly when preflight is; otherwise a fresh graph isomorphic to the reachable one and closed, and a table that finds every handoff under its names |
| HandoffClone.SameRoutes | agentcheck/adapters/openai_agents.py:2817-2857 | a route from a clone leads to the clone of what it leads to in the source, or nowhere in both |
| HandoffClone.NothingOriginalReachable | agentcheck/adapters/openai_agents.py:2781-2857 | whatever a route from the runtime agent reaches is a clone of a reachable agent and no original |
| OutputScan.OutputExecutionIssue | agentcheck/adapters/pydantic_ai.py:404-474 | the worklist with path-indexed ancestors ends on every graph and answers as the recursive depth-first search does |
| OutputScan.AcceptedExactly | agentcheck/adapters/pydantic_ai.py:404-474 | accepted exactly when no path from the declaration revisits a node and none leads to a refused one |
| SchemaScan.InertOutputDefault | agentcheck/adapters/pydantic_ai.py:477-496 | accepted exactly when everything reachable is plain data, on cyclic graphs too |
| SchemaScan.MetadataReason | agentcheck/adapters/pydantic_ai.py:554-573 | metadata is accepted exactly when every reachable entry is a container, nothing, the recognized hook or inert data |
| SchemaScan.DictReason | agentcheck/adapters/pydantic_ai.py:552-596 | one dictionary is accepted exactly when its metadata, class, kind, callbacks, factory, default and computed fields are |
| SchemaScan.CoreOutputCallbackReason | agentcheck/adapters/pydantic_ai.py:542-607 | accepted exactly when no object reachable through validation schemas is refused, on cyclic graphs too |
| HandoffEffects.Evaluator.EvalExpr | agentcheck/adapters/openai_handoff_effects.py:334-421 | the evaluator with its shared budget computes the specified value and remaining budget, or refuses |
| HandoffEffects.Evaluator.EvalJoinedStr | agentcheck/adapters/openai_handoff_effects.py:371-396 | f-strings are rendered piece by piece within the budget |
| HandoffEffects.AssignmentsFromBody | agentcheck/adapters/openai_handoff_effects.py:259-308 | the loop over the statements finds the specified assignments, or refuses |
| HandoffEffectsFacts.EvalRefines | agentcheck/adapters/openai_handoff_effects.py:334-440 | an accepted expression has the value found in the reference semantics, or raises because a local name hides `randint` |
| HandoffEffectsFacts.AcceptedCallback | agentcheck/adapters/openai_handoff_effects.py:259-308 | an accepted callback finishes exactly when no local name hides `randint`, and then writes exactly the assignments found, in order |
| HandoffEffectsFacts.LaterRebindingIsMissed | agentcheck/adapters/openai_handoff_effects.py:424-440 | a provider assigned after its use is accepted, and the callback raises |
| HandoffEffectsFacts.ParameterShadowingIsMissed | agentcheck/adapters/openai_handoff_effects.py:424-440 | a provider hidden by the parameter is accepted, and the callback raises |
| HandoffEffectsFacts.AssignmentsAreSafe | agentcheck/adapters/openai_handoff_effects.py:292-308 | at most four assignments, to distinct safe names, of short values that are not secret-shaped |
| HandoffEffectsFacts.ApplyContextAssignments | agentcheck/adapters/openai_handoff_effects.py:93-101 | the bag holds the assignments on top of what it had |
| HandoffEffectsFacts.ApplyOrderIrrelevant | agentcheck/adapters/openai_handoff_effects.py:93-101 | applying the assignments in any order gives the same bag |
| ControlledModelFacts.Sound | agentcheck/adapters/controlled_model.py:47-117 | every reply conforms to its schema: type, enum, anyOf, properties, required, items, minItems and references, also through cycles |
| ControlledModelFacts.MoreDepth | agentcheck/adapters/controlled_model.py:55-56 | a reply found with less depth left is found with more |
| ControlledModelFacts.SelfReference | agentcheck/adapters/controlled_model.py:58-64 | a definition that only refers to itself has no reply at any depth |
| OneOfFacts.OneOfExactly | agentcheck/adapters/controlled_model.py:68-76 | for oneOf options that name types, directly or through references: exactly one option accepts the reply exactly when the declared type of the first one with a type beside null overlaps no type named by another |
| OneOfFacts.OneOfCanFail | agentcheck/adapters/controlled_model.py:68-76 | for oneOf integer and number the reply is 0 and not exactly one option accepts it |
| OneOfFacts.DisjointKindsSuffice | agentcheck/adapters/controlled_model.py:68-76 | when the kinds of values read off the options through references, enumerations and unions are disjoint, exactly one option accepts the reply |
| OneOfFacts.ConformsKind | agentcheck/adapters/controlled_model.py:47-117 | whatever conforms to a schema is of a kind read off it, through references of any depth |
| PydanticControlled.SameInstance | agentcheck/adapters/pydantic_ai_controlled.py:28-89 | the second copy of the generator answers as the first on every input |
| CustomRun.Capture.AddEvent | agentcheck/adapters/custom.py:373-393 | the event gets the next number and is appended; the capture stays sound |
| CustomRun.Capture.LatestUserTurn | agentcheck/adapters/custom.py:408-412 | the backward search finds the latest user turn, if there is one |
| CustomRun.Capture.AddAttempt | agentcheck/adapters/custom.py:395-438 | one attempt, numbered next, with an event of its own |
| CustomRun.Capture.AddResult | agentcheck/adapters/custom.py:440-481 | one outcome for an attempt that had none, linked to the attempt's event |
| CustomRun.Capture.LinkOne | agentcheck/adapters/custom.py:488-494 | a transition cited for the first time gets the next number and this attempt; a known one keeps its link |
| CustomRun.Capture.LinkTransitions | agentcheck/adapters/custom.py:483-496 | the canonical names of all citations, in order, without renaming any |
| CustomRun.Capture.Flush | agentcheck/adapters/custom.py:1675-1691 | the listener receives exactly the events not handed over yet, in order |
| CustomDriver.Record | agentcheck/adapters/custom.py:716-742 | an answer becomes one outcome that names its citations |
| CustomDriver.DoCall | agentcheck/adapters/custom.py:646-714 | what a call leaves in the capture, for each reaction of the gateway, and exactly when it raises |
| CustomDriver.PlayStage | agentcheck/adapters/custom.py:1521-1549 | a stage leaves its calls and, if it ends well, its output; otherwise it raises what it ended with |
| CustomDriver.OneTurn | agentcheck/adapters/custom.py:1519-1576 | after a stage: the end, the spent budget, or the next scripted turn delivered |
| CustomDriver.DriveTurns | agentcheck/adapters/custom.py:1518-1577 | stages within the budget, one delivered turn fewer than stages, and how the loop ended |
| CustomDriver.Conclude | agentcheck/adapters/custom.py:1578-1593 | the final output is recorded exactly when the turns went to the end, and everything is handed to the listener |
| CustomDriver.Execute | agentcheck/adapters/custom.py:1486-1637 | the evidence is sound and exactly that of the calls made; the final output exists exactly on completion; the listener received every event once, in order |
| CustomIntegrity.IntegrityExactly | agentcheck/domain/run.py:188-230 | the evidence of the calls made meets the contract of a canonical run exactly when the gateway reports every transition cited in an answer, once |
| CustomIntegrity.LinkedAreCited | agentcheck/adapters/custom.py:483-496 | the linked transitions are those cited in the answers to the calls |
| CustomAdapter.ValidateTrajectory | agentcheck/domain/run.py:188-230 | the passes over events, attempts, transitions and outcomes decide the contract |
| CustomAdapter.Run | agentcheck/adapters/custom.py:1451-1662 | refused before anything happens exactly with a foreign or consumed target, no turn budget, a turn that is no user turn or an opening that is not one; otherwise returned exactly when every cited transition is reported once, and rejected after the listener has everything |
| CustomAdapter.UnreportedCitation | agentcheck/adapters/custom.py:1599-1637 | a run that goes to its end and is rejected because its one citation is not reported |
| Keys.IsSensitiveKey | agentcheck/redaction.py:74-90 | the loop over markers answers the specified test |
| Keys.NormalizedIdempotent | agentcheck/redaction.py:69-71 | normalizing a normalized key changes nothing |
| Keys.MarkerIsRun | agentcheck/redaction.py:80-90 | the four textual tests hold exactly when the marker's words occur next to each other in the key's words |
| Keys.SensitiveExactly | agentcheck/redaction.py:74-90 | a key is sensitive exactly when it is no usage counter and the words of some marker occur in it next to each other |
| Projection.NodeCounter.Project | agentcheck/coverage/analyzer.py:213-264 | lossless exactly when depth, nodes, containers, keys and scalars are all within bounds, and then it costs exactly the nodes of the tree |
| Projection.NodeCounter.Redact | agentcheck/privacy.py:20-95 | the recursion with its shared budget stores the specified value and leaves the specified budget |
| Projection.StoredFits | agentcheck/privacy.py:20-95 | whatever is redacted, the result is narrow and shallow and the budget is never overdrawn |
| Projection.WithheldReplaced | agentcheck/privacy.py:57-72 | under a withheld key the marker is stored, unless a later key cleans to the same text |
| Projection.WithheldConcealed | agentcheck/privacy.py:57-72 | two values that differ only under withheld keys are stored alike and cost the same |
| Projection.StoredUntouched | agentcheck/privacy.py:20-95 | a stable value that fits the budget is stored unchanged and costs exactly its nodes |
| Projection.ProjectionAnticipatesStore | agentcheck/coverage/analyzer.py:267-280 | what the projection keeps, the artifact redaction reaches whole from depth six or less |
| Projection.ProjectThenStore | agentcheck/coverage/analyzer.py:267-290 | a value called lossless is stored unchanged |
| Sanitize.SanitizeBudget.BoundedText | agentcheck/redaction.py:99-114 | text is cut to what is left, and charged exactly its length |
| Sanitize.SanitizeBudget.Sanitize | agentcheck/redaction.py:117-233 | budgets never go below zero and pay exactly for the text emitted and the nodes visited; every key and text is cleaned, secrets are withheld, and the result is bounded in width and depth |
| Sanitize.SanitizeValue | agentcheck/redaction.py:117-233 | a whole value emits at most 65,536 characters from at most 1,000 nodes, all of them cleaned |

## Left out

- The regular expressions of text redaction, hashing and its JSON encoding, and schema validation: parameters of the model.
- The legacy digest of verification: analysis never emits it.
- Time stamps, latencies, asynchronous scheduling, listeners that raise, and the wording of messages.
- The tool gateway, launch barrier, evaluator, shrinker, suite generation, stores, configuration and command line.
- Introspection of closures, signatures and source text in the adapters: the model starts from agents, declarations, object graphs and syntax trees already read.
- The checks of a single agent (instructions, models, guardrails, kinds of tools): what they find is part of an agent; the settings copied to clones are not modelled beyond names, tools and handoffs.
- Gate.RunGate: a comparison that is refused altogether is an error before any answer, and the cases compared are those of the stored run.
- Outcomes.Best: the outcome folds build candidates as values where the code appends to lists; the texts of reasons are an enumeration.
- Seeds.SeedTable.AddAll: tools and policies are added in their given order where the code sorts them; SeedFacts.SpecOrderIrrelevant shows that the table is the same.
- CoverageFacts.VerifyAcceptsGivenReference: for a permuted reference it asks that no two prerequisite relations collide, which is where the code itself depends on the order.
- CoverageFacts.VerifyAcceptsWithoutReference: asks in addition that an identity and fingerprint stand for one scenario, since the code compares only those.
- Keys.NormalizedIdempotent: case folding is a parameter that keeps plain words; Unicode character classes are those of ASCII.
- Projection.NodeCounter.Redact: object cycles, which values of this model do not have, and the identity set that guards against them.
- Sanitize.SanitizeBudget.Sanitize: entries are ordered writes, so two keys that clean to the same text stay two writes; objects of unknown types are not values of this model.
- ControlledModelFacts.Sound: one construct per node, `required` beside `properties`, type names of the standard, and an enumeration consistent with a type beside it; names in `required` that are not text make the model answer nothing where an unhashable one makes the code raise.
- HandoffEffects.AssignmentsFromBody: the size of source text, the count of syntax nodes and the signature are checked before and only refuse more.
- SchemaScan.CoreOutputCallbackReason: whether a class carries a custom schema hook is part of the object graph.
- CustomAdapter.Run: a call after the run has ended, concurrent calls, and the mapping of an exception through its chain of causes, which is given as the class of the exception.
- OneOfFacts.DisjointKindsSuffice: a sufficient condition; the exact one is proved for options that name types, since for others it depends on the values built.
