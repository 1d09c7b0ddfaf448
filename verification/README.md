# SchemaRouter benchmark harness: a verified model

SchemaRouter ships a benchmark harness that runs tool-using agents against frozen,
deterministic fixtures and reports how they did. This project models that harness in Dafny
and proves what its reports rest on: that an executor replays its fixture and nothing else,
exactly when an agent can make an episode raise or count an unauthorized destructive call,
that every built task can be finished and in exactly how many turns, when it is shown what it
needs, that what an agent is shown or says beside its calls never changes what is true, and
that the published statistics mean what they say.

`dafny verify dfyconfig.toml` checks everything.

## How the model is laid out

| files | what they hold |
|---|---|
| `wrappers`, `text`, `json_values`, `arithmetic` | options and results, the Python string and list operations used, JSON values, real-number facts |
| `registry`, `gates`, `frozen`, `replay`, `argument_rules`, `attempts` | tools and routes, the ordered gates, the frozen-corpus executor (a class), what every run of it keeps, and what one call does, said of the values |
| `deterministic`, `b2_suite`, `suite_rules` | the second executor (a class), its literal tables, its task suite and what each stage accepts |
| `tracker`, `observed_lists` | the observable-state tracker, and what each of its lists holds after a run |
| `episode`, `episode_loop`, `episode_invariants`, `episode_theorems`, `candidates`, `records` | one episode as a specification, the same episode as a loop over a mutable executor, its theorems, and a turn and the record in full |
| `working`, `completion`, `turn_count`, `state_aware`, `raising` | turns that do one unit of work or none, the agents built from them, exactly how many turns a task needs, what the state-aware condition shows an agent that makes only right calls, and exactly which episodes can raise |
| `base_catalog`, `builders`, `solvability`, `corpora`, `built_tasks`, `projection` | the twenty base operations, the fixture builders for every index, what every built task asks, and field projection |
| `witnesses` | concrete inputs: where the harness departs from what it documents, and a task that needs the feedback |
| `markdown_units`, `line_classes`, `rendered_html`, `ledger`, `ledger_terms` | the three documentation automata, and their terms in characters |
| `samples`, `wilson`, `heldout_design`, `bootstrap`, `resampling`, `contrastive`, `cascade` | quantiles, the Wilson interval, the balanced design and its stratified bootstrap, and the two scorers |

Each stateful class and each loop is a class or a method proved equal to a specification
function (`FrozenCorpusExecutor.Execute` to `Frozen.Perform`, `RunEpisode` to `Episodes.Run`,
`ReviewUnits` to `MarkdownUnits.Scan`, and so on); the theorems are lemmas about those
functions, over every agent script, every fixture and every registry. Where a specification
function decides something - which argument is right, which field identifies, which line is a
heading - a lemma named `...Exactly` says the same of characters, numbers and positions, without
that function.

An agent is an arbitrary sequence of outputs: a context overflow, text whose tool calls do not
parse, or a reply with any list of named calls. Rankings, the structural planner, the state-to-query
renderer, Python's `str` on non-strings, the observation rewrite, the bootstrap's random
numbers, `exp` and `sqrt` are parameters.

## What the proofs found

- A destructive endpoint of a namespaced tool is counted by the safety metric but not blocked
  by the executor: the route `ns.tool.endpoint` is split at its first dot and resolves to
  nothing, so the call is logged as an unknown tool and is not policy-blocked.
  `EpisodeTheorems.SafetyExactly` gives the exact condition, `SafeCatalogIsCheckable` turns it
  into a finite check, and `NamespacedDestructiveToolLeaks` is a concrete catalog.
- A tool is offered under `route.replace(".", "__")` and called back through
  `name.replace("__", ".", 1)`. The round trip fails for a tool key that contains a double
  underscore, one that ends in an underscore, and any route with two dots
  (`Registry.OfferedNameRoundTrip`; `Witnesses.NamespacedNameIsLost` is a route).
- The tracker rejects, and so the episode raises on, a consumed observation with an unknown
  status or an empty field name, and a scripted fault whose text starts with a colon
  (`EpisodeInvariants.EmissionTrackable`, `Tracker.UpdateAcceptsExactly`).
  `Raising.RaisesExactly` says which fixtures let some agent cause that, and
  `Witnesses.UnknownStatusRaises` is a fixture and the one call that does.
- Feeding the tracker state back costs an agent no turn, and it recovers routes the first
  candidate set misses: `StateAwareCount.TerseTurnCount` says exactly when a one-call-a-turn
  agent passes in the least number of turns, and `FeedbackRecovers` and
  `Witnesses.FeedbackIsNeeded` show tasks no agent can pass without it.
- A progressive condition can cost two turns more than the shortest run, whatever the agent
  does: widening takes a turn in which a step of a later candidate set cannot be taken
  (`TurnCount.ProgressiveTurnCount`, `ProgressiveSlack`). The limit of six turns is then
  exactly enough for the longest built tasks: five are too few when the ranking finds nothing
  (`Corpora.TurnLimitIsTight`, `TurnLimitIsTightForFinals`).
- Route coverage exceeds 1 when a completed fixture repeats a route
  (`EpisodeTheorems.CoverageMeaning`, `Witnesses.RepeatedRouteExceedsOne`); no built fixture does.
- `project_observation` documents that projection only removes. One view adds a key
  (`Projection.OnlyRemovesExactly`, `ContractViewAdds`), and in one corner projecting twice
  differs from projecting once (`IdempotentExactly`, `Witnesses.SecondProjectionDiffers`). The
  model follows the code.
- The branch of the Markdown splitter that flushes a pending table is dead
  (`MarkdownUnits.TableFlushIsDead`).

## Model

| member | source | states |
|---|---|---|
| Registry.RouteIdsMembers | benchmarks/agent_utility_b2_catalog.py:606-611 | a string is a listed route identifier if and only if it is the key, a dot and the name of some registered endpoint |
| Registry.DotFreeResolves | scripts/agent_utility_generated_common.py:219-226 | an endpoint of a tool whose key has no dot is found by the very route it is listed under |
| Registry.DotFreeKeysSuffice | scripts/agent_utility_generated_common.py:219-226 | if no tool key has a dot, every listed destructive route resolves, and to a destructive endpoint |
| Registry.SchemaFaultMeaning | benchmarks/agent_utility_b2_executor.py:67-97 | arguments are accepted if and only if all are declared, all required ones are present and every present value has an allowed type |
| Registry.CallableExactly | scripts/agent_utility_generated_common.py:820 | some nonempty tool name decodes to a route if and only if the route is nonempty and has no double underscore, or has a dot before which (counting an underscore appended there) there is none |
| Registry.OfferedNameRoundTrip | scripts/evaluate_agent_utility_phase_b_smollm3.py:72-73 | the offered function name decodes back to its route if and only if the route has one dot with no double underscore before it and no underscore right before it, or has no dot and no double underscore |
| Gates.GateSafety | scripts/agent_utility_generated_common.py:250-294 | on a route that is dependable no call, whatever its flags and arguments, is an unauthorized destructive execution |
| Gates.GateLeak | scripts/agent_utility_generated_common.py:982-993 | on an undependable destructive route every call out of turn is counted |
| Gates.AdvanceClearsEveryGate | scripts/agent_utility_generated_common.py:237-394 | a call advances the task if and only if it is known, available, expected, schema valid, allowed to execute, meets its rules and has no fault left |
| Frozen.FrozenCorpusExecutor.Execute | scripts/agent_utility_generated_common.py:237-394 | progress, state, remembered faults and log change exactly as the gate order says, and the logged attempt is the specified one |
| Frozen.FrozenCorpusExecutor.ExecuteExpected | scripts/agent_utility_generated_common.py:331-394 | the same for the last gates: argument rules, fail-once, advance |
| Frozen.FrozenCorpusExecutor.Remember | scripts/agent_utility_generated_common.py:370-372 | the state becomes its merge with the observation without `status` and `error` |
| ArgumentRules.PyEqExactly | scripts/agent_utility_generated_common.py:171-189 | what equals a value: a text only itself, a number or boolean every number or boolean of its value, lists and objects whatever equals them entry by entry |
| ArgumentRules.ArgumentsDecide | scripts/agent_utility_generated_common.py:331-394 | a call that gets as far as the argument rules is right if and only if every rule accepts its argument; refused it changes nothing, otherwise it fires the scripted fault once or advances |
| ArgumentRules.TextRuleAccepts | scripts/agent_utility_generated_common.py:171-180 | an `eq` text accepts exactly that text |
| ArgumentRules.NumberRuleAccepts | scripts/agent_utility_generated_common.py:171-179 | an `eq` number accepts exactly the numbers of that value, and no boolean |
| ArgumentRules.StateRuleAccepts | scripts/agent_utility_generated_common.py:183-185 | a `state` entry that holds a text accepts exactly that text, and a missing entry nothing |
| ArgumentRules.ContainsRuleAccepts | scripts/agent_utility_generated_common.py:186-188 | a `contains_state` entry accepts exactly the values whose text holds the stored value's text, and a missing entry nothing |
| ArgumentRules.NonemptyRuleAccepts | scripts/agent_utility_generated_common.py:181-182 | `nonempty` accepts exactly the texts with a visible character |
| ArgumentRules.StateIsLastWritten | scripts/agent_utility_generated_common.py:366-372 | the task state holds, under each key, what the last consumed step that carries the key wrote, status and error apart |
| ArgumentRules.ChainedArguments | scripts/agent_utility_generated_common.py:228-235 | over every run a consumed chained argument equals the value the last earlier step carrying the key wrote |
| ArgumentRules.EpisodeChains | scripts/agent_utility_generated_common.py:228-235 | and over every episode of every agent |
| Attempts.SchemaExactly | benchmarks/agent_utility_b2_executor.py:67-97 | the schema check names the undeclared arguments, sorted, or else the first parameter in declaration order that is missing or not of its declared type, or accepts |
| Attempts.CallExactly | scripts/agent_utility_generated_common.py:237-394 | one call in full: the nine outcomes by the first condition that applies, every field of the logged attempt, and what is remembered |
| Replay.EveryRunReplays | scripts/agent_utility_generated_common.py:192-394 | after any calls the advancing attempts are the first `progress` steps in order, each having met its rules in the state the earlier steps built; the state is their merge; remembered faults are the passed ones and at most the current one; working attempts number progress plus faults |
| Replay.NoiseIsInvisible | scripts/agent_utility_generated_common.py:237-394 | deleting every call that neither advanced nor used up a fault leaves progress, state and remembered faults unchanged |
| Replay.CompletionCost | scripts/agent_utility_generated_common.py:210-211 | completion takes exactly one working attempt per step and one per scripted fault |
| Replay.NoUnauthorizedExecution | scripts/agent_utility_generated_common.py:219-296 | calls to dependable routes leave no unauthorized destructive execution in the log |
| Deterministic.DeterministicTaskExecutor.Execute | benchmarks/agent_utility_b2_executor.py:396-534 | the second executor's fields change exactly as the same gate order says |
| Deterministic.EveryRunReplays | benchmarks/agent_utility_b2_executor.py:396-534 | after any calls the attempts that advanced are one per consumed route, in order: each resolved, had arguments its schema accepts and that are right in the state the earlier routes stored, and returned what the tables show in that state; and the state is what the consumed routes stored |
| Deterministic.NoiseIsInvisible | benchmarks/agent_utility_b2_executor.py:396-534 | deleting every call that does not advance leaves progress and state as they were, and what is left is one call per consumed route |
| Deterministic.NoUnauthorizedExecution | benchmarks/agent_utility_b2_executor.py:404-461 | the second executor gives the same safety for every sequence of calls to dependable routes |
| B2Suite.AnswerRight | benchmarks/agent_utility_b2_executor.py:137-275 | each required operation of each suite task has arguments its schema and its rule accept in the state the earlier operation stored |
| B2Suite.ChainedIdentifierWasShown | benchmarks/agent_utility_b2_executor.py:205-273 | a chained rule accepts exactly the identifier the previous operation showed the agent |
| SuiteRules.SuiteDecides | benchmarks/agent_utility_b2_executor.py:137-275 | in every suite task a call to the operation that is due, offered, allowed and fitting its schema goes on if and only if its arguments are the literal ones of that stage, texts up to surrounding blanks, with the identifiers the earlier operation returned |
| B2Suite.SuiteCompletion | benchmarks/agent_utility_b2_executor.py:127-135 | a schedule of m calls completes a suite task if and only if m is at least its number of required routes, on every catalog extending the base one |
| Text.StrLeExactly | scripts/agent_utility_v6_state.py:237-243 | the order lists are sorted in: a prefix first, else the smaller character at the first difference |
| Tracker.AddField | scripts/agent_utility_v6_state.py:209-229 | one observed field adds to each of the seven sets what its name, value and metadata contribute |
| Tracker.ErrorClassMeaning | scripts/agent_utility_v6_state.py:58-64 | there is no class exactly when the error is absent or blank; otherwise the class is the stripped text before its first colon, or all of it |
| Tracker.Gather | scripts/agent_utility_v6_state.py:194-229 | the loop over observed fields yields, for each list, the old entries and what every field contributes |
| Tracker.UpdateState | scripts/agent_utility_v6_state.py:172-249 | the method returns the specified new state or the specified rejection |
| Tracker.UpdateAcceptsExactly | scripts/agent_utility_v6_state.py:109-249 | from a valid state an update succeeds if and only if the status is known, no observed field name is empty and the error text does not start with a colon |
| Tracker.TrackIsCanonical | scripts/agent_utility_v6_state.py:89-249 | a run succeeds if and only if every event is trackable, and then each list is the sorted listing of the union over the run and the routes are the first occurrences of the registered ones, in order, and status, error class and completion flag describe the last event |
| Tracker.OrderIndependence | scripts/agent_utility_v6_state.py:172-249 | runs with the same events in any order and multiplicity end with the same seven lists |
| Tracker.UpdateOnlyGrows | scripts/agent_utility_v6_state.py:186-229 | no list loses an entry and the route list is only extended at its end |
| ObservedLists.IdentifiersExactly | scripts/agent_utility_v6_state.py:67-86 | after any run a text is a stable identifier if and only if some event of a registered endpoint shows a string, number or boolean that renders and strips to it in a field whose name ends in `_id`, or whose metadata is flagged or has a semantic id ending in `.id` or `.identifier` |
| ObservedLists.NamesAndTypesExactly | scripts/agent_utility_v6_state.py:209-211 | the field names and the JSON type labels of everything observed |
| ObservedLists.MetadataListsExactly | scripts/agent_utility_v6_state.py:212-221 | semantic ids, units, dimensions and qualifiers: exactly those of the last output field declared under the name of an observed field of a registered endpoint |
| ObservedLists.RestExactly | scripts/agent_utility_v6_state.py:186-249 | the stripped query, the registered routes called, and the last event's status and completion flag |
| ObservedLists.PaperTextIsInvisible | scripts/agent_utility_v6_state.py:67-86 | any two texts of a retrieved paper leave the same state |
| ObservedLists.FreeTextIsInvisible | scripts/agent_utility_v6_state.py:67-86 | observations that agree on names, value types, status and the values of identifying fields, in the literal sense above, update the state identically |
| EpisodeInvariants.EmissionTrackable | scripts/agent_utility_generated_common.py:245-394 | what the executor emits is trackable if and only if, when it consumed a step or fired a fault, that step's observation or fault text is |
| EpisodeInvariants.EveryEpisodeKept | scripts/agent_utility_generated_common.py:722-964 | every reachable episode state satisfies the whole invariant: replay, canonical tracker state, exposure bookkeeping, and every consumed step doable and exposed |
| EpisodeLoop.ExecuteOne | scripts/agent_utility_generated_common.py:862-921 | one call against the live executor gives the specified attempt, shown observation and tracker state |
| EpisodeLoop.ExecuteCalls | scripts/agent_utility_generated_common.py:819-921 | the calls of one turn, only the first of which may execute, give the specified result |
| EpisodeLoop.TakeTurn | scripts/agent_utility_generated_common.py:722-964 | one turn of the loop is the specified turn, for every agent output |
| EpisodeLoop.RunEpisode | scripts/agent_utility_generated_common.py:722-1022 | the loop returns the specified record or exception |
| Candidates.FirstExactly | scripts/agent_utility_generated_common.py:140-168 | a condition first shows exactly the whole catalog, the required routes, the first three, five or ten of the ranking, or the planner's routes; only an unknown one fails |
| Candidates.TurnExactly | scripts/agent_utility_generated_common.py:722-964 | one turn in full, for every output: how each call is carried out, told to the tracker and shown; when the candidate set follows the tracker, widens or stays, and to what; what is said to the agent; and when the loop ends |
| Records.OutputsRead | scripts/agent_utility_generated_common.py:722-817 | an episode reads the outputs in order, all of them unless its loop has ended, and ends as with those alone |
| Records.RecordExactly | scripts/agent_utility_generated_common.py:965-1060 | the record field by field: a supported task passed if and only if the advancing attempts are all the steps and no output that was read overflowed, an unsupported one if and only if no attempt was executed and the last text, stripped, is the refusal; progress, coverage, turns, malformed outputs, retrievals, exposure, the initial miss and its recovery, and unguarded destructive calls |
| EpisodeTheorems.ExposureIsBounded | scripts/agent_utility_generated_common.py:707-720 | retrievals are one plus the expansions and equal the history length, the visible set is the last history entry, and there are at most 3, 6 or 1 candidate sets |
| EpisodeTheorems.BudgetHolds | scripts/agent_utility_generated_common.py:140-168 | no candidate set of any episode, the first or a later one, is larger than its condition allows, provided the planner, asked for k routes, names at most k |
| EpisodeTheorems.ProgressiveOnlyWidens | scripts/agent_utility_generated_common.py:158-165 | a progressive episode's visible sets only grow, and the third is the full catalog |
| EpisodeTheorems.PassingUsedEveryRoute | scripts/agent_utility_generated_common.py:862-867 | a supported episode that passes consumed every step, each doable and exposed in some candidate set |
| EpisodeTheorems.PassingMeansRecovered | scripts/agent_utility_generated_common.py:1012-1022 | passing despite an initial miss means the miss was recovered; where candidates never change, only an episode without a miss passes |
| EpisodeTheorems.SpoilsRefusalExactly | scripts/agent_utility_generated_common.py:1002-1007 | on an unsupported task the calls that count as executed are exactly the first calls of a turn to a visible, known, non-destructive tool with valid arguments |
| EpisodeTheorems.ImmediateRefusal | scripts/agent_utility_generated_common.py:1002-1007 | answering an unsupported task at once passes if and only if the stripped answer is the refusal |
| EpisodeTheorems.CoverageMeaning | scripts/agent_utility_generated_common.py:995-1001 | coverage is progress over distinct routes, at most 1 and equal to 1 exactly on completion when no route repeats, above 1 on completion when one does |
| EpisodeTheorems.PassingCost | scripts/agent_utility_generated_common.py:722 | under every agent a passing supported episode took at least one turn per step plus one per fault |
| EpisodeTheorems.EpisodesNeverRaise | scripts/agent_utility_generated_common.py:722-964 | with a supported condition, the state-aware one included, a visible query, registered rankings and a trackable fixture no agent output makes the episode raise |
| EpisodeTheorems.SafetyExactly | scripts/agent_utility_generated_common.py:982-993 | the unauthorized-destructive count is 0 for every task, condition and agent if and only if every destructive route that can be called resolves to a destructive endpoint |
| EpisodeTheorems.SafeCatalogIsCheckable | scripts/agent_utility_generated_common.py:219-226 | that condition is a finite check over the registered destructive endpoints |
| EpisodeTheorems.NamespacedDestructiveToolLeaks | src/schemarouter/models.py:845-847 | a concrete namespaced tool with a destructive endpoint fails it |
| EpisodeTheorems.PresentationCannotChangeTruth | scripts/agent_utility_generated_common.py:899-921 | for one sequence of agent outputs the whole record but the messages is the same under any observation rewrite |
| EpisodeTheorems.TextCannotChangeTruth | scripts/agent_utility_generated_common.py:722-964 | whatever an agent says around the same calls, the episode is the same up to what was said, and for a supported task so is the record up to the messages |
| Raising.RaisesWhereReached | scripts/agent_utility_generated_common.py:722-964 | under every condition whose candidate sets hold registered routes, with a visible query: no agent makes the episode raise if and only if every fitting call on the expected step, at every episode some agent can reach, emits something the tracker accepts |
| Raising.RaisesExactly | scripts/agent_utility_generated_common.py:722-964 | with a visible query no agent makes the episode raise if and only if every step that can be reached and called - all earlier steps doable on routes that can be shown, its own route shown, nameable and with fitting arguments - has a trackable observation and a trackable fault; under the state-aware condition for rankings of registered routes that show each position the route it needs |
| Working.BusyTurn | scripts/agent_utility_generated_common.py:722-964 | a turn that makes the right call and then a junk one does the unit of work that is due, or raises exactly when what that work emits cannot be tracked, and widens a progressive view by one |
| Completion.LevelMeaning | scripts/agent_utility_generated_common.py:758-811 | a step's level is the least number of widenings after which its route is visible |
| Completion.Reach | scripts/agent_utility_generated_common.py:722-964 | an agent that finishes the first p steps within m turns exists whenever each of them can be shown early enough to leave the turns it and those after it cost |
| TurnCount.EveryEpisodePunctual | scripts/agent_utility_generated_common.py:722-964 | under every agent, work on a step starts only when its route has been shown, so not before as many turns as its level, and from there at most one unit of work is done a turn |
| TurnCount.ExactTurnCount | scripts/agent_utility_generated_common.py:722-964 | under every condition but the state-aware one some agent passes with m turns available if and only if the query is visible and every step is doable and can be shown early enough to leave, within m, one turn for it, for each later step and for each of their faults |
| TurnCount.TightCompletion | scripts/agent_utility_generated_common.py:140-168 | with one fixed candidate set some agent passes with m turns available if and only if every step is doable on a route visible from the start and m is at least steps plus faults |
| TurnCount.ProgressiveTurnCount | scripts/agent_utility_generated_common.py:758-811 | under a progressive condition some agent passes with m turns available if and only if every step is doable on a registered route and its level, plus the steps and faults from it on, is at most m |
| TurnCount.LevelInRanking | scripts/agent_utility_generated_common.py:158-165 | a route's level is 0 in the top three of the ranking, 1 in the top ten, 2 otherwise |
| TurnCount.ProgressiveSlack | scripts/agent_utility_generated_common.py:758-811 | for every ranking of registered routes, steps plus faults plus two turns suffice, fewer than steps plus faults never do, and with an empty ranking exactly two more are needed |
| StateAwareCount.StateAwareTurnCount | scripts/agent_utility_generated_common.py:939-964 | when every position shows the route it needs - the top five for the query first, then for the tracker state that the right calls before it leave - some agent passes with m turns available if and only if every step is doable and m is at least steps plus faults |
| StateAwareCount.TerseTurnCount | scripts/agent_utility_generated_common.py:939-964 | with nothing assumed of the rankings: an agent that makes at most one call a turn can pass in the least number of turns if and only if every step is doable and every position shows the route it needs |
| StateAwareCount.FeedbackRecovers | scripts/agent_utility_generated_common.py:939-964 | if the top five for the query misses a step route and every position shows the route it needs, no agent passes with that top five fixed, however many turns it has, and with the feedback steps plus faults turns are exactly enough |
| BaseCatalog.BaseWellFormed | benchmarks/agent_utility_b2_catalog.py:83-363 | the base tools have distinct keys, distinct endpoint names and named dimensions |
| BaseCatalog.ExtendedCatalogProvides | scripts/agent_utility_generated_common.py:95-114 | every catalog that extends the base tools resolves and lists every base operation under its own route |
| BaseCatalog.RouteCallable | benchmarks/agent_utility_b2_catalog.py:83-363 | every base route can be called through a tool name |
| BaseCatalog.RouteInjective | benchmarks/agent_utility_b2_catalog.py:83-363 | different base operations have different routes |
| Solvability.ScenarioDone | scripts/agent_utility_generated_corpus.py:486-752 | in every scenario, for every index and fault setting, each step has fitting arguments in the state the earlier steps build |
| Solvability.FinalDone | scripts/agent_utility_generated_corpus.py:922-1146 | the same for every stratum of the final-answer corpus |
| BuiltTasks.ScenarioBuilt | scripts/agent_utility_generated_corpus.py:486-752 | each scenario asks exactly for its plan: literal routes, and in the state the earlier steps leave exactly the literal argument values, chained identifiers spelled out; and carries its fault text on the stated step |
| BuiltTasks.BuiltCorrective | scripts/agent_utility_generated_corpus.py:755-806 | every corrective task follows the plan its slot picks round-robin, and only the recoverable stratum carries a fault, "transient_backend", on its first step or on the second of the three-step plan |
| BuiltTasks.BuiltHeldout | scripts/agent_utility_generated_corpus.py:809-909 | every held-out task is empty and unsupported in three strata and otherwise follows its slot's plan, with that fault exactly in the recoverable stratum |
| BuiltTasks.BuiltFinal | scripts/agent_utility_generated_corpus.py:922-1146 | every final-answer task follows its plan and carries no fault |
| BuiltTasks.ScenarioObservations | scripts/agent_utility_generated_corpus.py:486-752 | what every step of every scenario shows once consumed, entry by entry |
| BuiltTasks.PadExactly | scripts/agent_utility_generated_corpus.py:471-483 | an index is written in decimal with at least four digits and reads back |
| BuiltTasks.CorrectiveTurnCount | scripts/agent_utility_generated_corpus.py:755-806 | the exact number of turns of every corrective task, by stratum and slot, when everything is shown, under the state-aware condition, and with nothing ranked |
| BuiltTasks.HeldoutTurnCount | scripts/agent_utility_generated_corpus.py:809-909 | the same for every supported held-out task |
| Corpora.ScenarioTasksPass | scripts/agent_utility_generated_corpus.py:486-752 | every scenario task drops no route to deduplication and is passed by some agent within six turns: under FULL and ORACLE, under a progressive condition for every ranking of registered routes, under the state-aware one when every position shows the route it needs, which holds if and only if a one-call-a-turn agent passes in the least number of turns, and under another fixed candidate set if and only if no required route is missing from it |
| Corpora.ScenarioTurnCount | scripts/agent_utility_generated_corpus.py:486-752 | a scenario task needs exactly one turn per operation and one for its fault under FULL and ORACLE, and under the state-aware condition when every position shows the route it needs, and two more under a progressive condition whose ranking finds nothing |
| Corpora.TurnLimitIsTight | scripts/evaluate_agent_utility_phase_b_smollm3.py:37 | then a faulted three-step scenario is passable in six turns and not in five |
| Corpora.TurnLimitIsTightForFinals | scripts/evaluate_agent_utility_phase_b_smollm3.py:37 | and so is the four-step stratum of the final-answer corpus |
| Corpora.CorrectiveTasksPass | scripts/agent_utility_generated_corpus.py:755-806 | every corrective task, for every stratum, slot and index, passes within six turns under the same conditions |
| Corpora.HeldoutTasksPass | scripts/agent_utility_generated_corpus.py:809-909 | a held-out task is unsupported exactly in the three strata without scenarios, and otherwise passes within six turns under the same conditions |
| Corpora.FinalTasksPass | scripts/agent_utility_generated_corpus.py:922-1146 | every final-answer task, for every stratum and index, passes within six turns under the same conditions |
| Projection.ShownExactly | scripts/agent_utility_v7_projection.py:63-69 | a payload field is shown, unchanged, under RAW-FULL if and only if it was observed, under PROJECTED and PROJECTED+CONTRACT if and only if it is also planned, under ORACLE-MINIMAL if and only if it is also gold |
| Projection.ContractEntryExactly | scripts/agent_utility_v7_projection.py:71-78 | PROJECTED+CONTRACT shows the contracts of exactly the planned, observed fields that have one, and no entry of its own when there is none |
| Projection.OnlyRemovesExactly | scripts/agent_utility_v7_projection.py:45-80 | the result is part of the observation if and only if the contract view is not used, no planned, observed field has a contract, or just that entry was already there |
| Projection.ContractViewAdds | scripts/agent_utility_v7_projection.py:71-78 | a concrete observation to which the contract view adds a key |
| Projection.IdempotentExactly | scripts/agent_utility_v7_projection.py:45-80 | projecting twice is projecting once if and only if it is not the case that under the contract view some planned, observed field has a contract while the entry itself is planned, has a contract and was not observed |
| Projection.FailuresStayVisible | scripts/agent_utility_v7_projection.py:64-69 | under every view and agent, over the whole episode, one observation is shown for each call, in order, with exactly the status and error that were logged |
| Projection.NoViewStarvesAStep | scripts/agent_utility_v7_projection.py:193-498 | in every projection task and view each step has fitting arguments whose state-dependent values were all shown |
| Projection.ViewsDiffer | scripts/agent_utility_v7_projection.py:193-498 | in every projection task, at every step, RAW-FULL shows more than was planned, PROJECTED all that was, PROJECTED+CONTRACT a contract entry; PROJECTED and ORACLE-MINIMAL differ exactly at the first step of the two-step stratum |
| Projection.RecordTellsApart | scripts/agent_utility_v7_projection.py:417-460 | there PROJECTED shows the material identifier and ORACLE-MINIMAL does not |
| Projection.ProjectionTasksPass | scripts/agent_utility_v7_projection.py:193-498 | every projection task, for every stratum, prefix and index, passes within six turns under the same conditions |
| Projection.ViewsAgreeOnTruth | scripts/evaluate_agent_utility_v7_projection.py:39-49 | for one sequence of agent outputs all views give the same record up to the messages |
| Witnesses.NamespacedNameIsLost | scripts/evaluate_agent_utility_phase_b_smollm3.py:72-73 | a concrete route whose offered name calls another route |
| Witnesses.SecondProjectionDiffers | scripts/agent_utility_v7_projection.py:45-80 | a concrete observation on which projecting twice differs from projecting once |
| Witnesses.UnknownStatusRaises | scripts/agent_utility_generated_common.py:899-921 | a one-step fixture with an unknown status and the one call that makes it raise |
| Witnesses.FeedbackIsNeeded | scripts/agent_utility_generated_corpus.py:486-752 | a built two-step task and a ranking with which, for every index, two turns are exactly enough under the state-aware condition and no number of turns is under the fixed top five |
| Witnesses.RepeatedRouteExceedsOne | scripts/agent_utility_generated_common.py:995-1001 | a fixture that repeats a route, and an agent that passes it with coverage above 1 |
| LineClasses.FenceExactly | scripts/audit_translation_review_units.py:16 | a fence line is blanks and three backticks or three tildes |
| LineClasses.ClassExactly | scripts/audit_translation_review_units.py:17-18 | outside fences a line is a heading if it is blanks, one to six hashes and a space; else a table row if blanks and a bar; else a list item if blanks, a bullet or a number with its mark, and a space; else a paragraph line |
| MarkdownUnits.ReviewUnits | scripts/audit_translation_review_units.py:32-99 | the loop returns the specified units, or the unclosed-fence error |
| MarkdownUnits.Conservation | scripts/audit_translation_review_units.py:32-99 | every unit is one block with index, section, start line, kind and text as the document says; the units' lines are the visible lines outside fences, in order; the error occurs exactly when a fence is open at the end |
| MarkdownUnits.EachLineOnce | scripts/audit_translation_review_units.py:59-99 | every visible line outside fences is in exactly one unit, no other line is in any, and line ranges follow each other without overlap |
| MarkdownUnits.TableFlushIsDead | scripts/audit_translation_review_units.py:90-91 | no document reaches a paragraph line with a table in the buffer |
| RenderedHtml.CodeBlockParser.HandleStartTag | scripts/check_rendered_docs.py:17-24 | the stack and the errors after a start tag |
| RenderedHtml.CodeBlockParser.HandleEndTag | scripts/check_rendered_docs.py:26-34 | the stack and the errors after an end tag |
| RenderedHtml.CheckHtml | scripts/check_rendered_docs.py:37-49 | a page has no problem if and only if no Markdown fence survived and its tags are well structured |
| RenderedHtml.StructureExactly | scripts/check_rendered_docs.py:11-48 | the automaton ends with no error and an empty stack if and only if `pre` elements are balanced, never nested, and each contains a `code` start tag |
| ReviewLedger.CheckBlob | scripts/audit_translation_semantic_sections.py:155-172 | one side is accepted if and only if the pinned hash is well formed and is that of the current file; otherwise the problem tells a malformed hash, a missing file and a changed file apart |
| ReviewLedger.CheckEntry | scripts/audit_translation_semantic_sections.py:128-174 | an entry is clean if and only if it is identified, new and, when preserved, justified; it approves if and only if it is also preserved; each kind of malformed entry gets its own problem |
| ReviewLedger.VerifyReviewed | scripts/audit_translation_semantic_sections.py:111-179 | no error is reported if and only if entries have valid, safe, unique identities, every preserved entry has a rationale and pins both current files, and every finding has such an entry; a finding without a section is always reported |
| LedgerTerms.SafeExactly | scripts/audit_translation_semantic_sections.py:138-141 | a path is safe if and only if it does not start with a slash and, cut at slashes, has no `..` and a Markdown file as its last naming part |
| LedgerTerms.AcceptableExactly | scripts/audit_translation_semantic_sections.py:111-179 | acceptance in full, down to characters: located entries with distinct path and section, every claim of preserved meaning backed by a visible rationale and the current hash in both languages, and every finding answered by such an entry for its own page and section |
| Samples.QuantileIsPolyline | scripts/aggregate_agent_utility_phase_b2.py:76-83 | both interpolations are, on every segment with its end points, the straight line through neighbouring order statistics |
| Samples.QuantileExactly | scripts/aggregate_agent_utility_phase_b2.py:76-83 | a quantile is the straight line through the two order statistics around the probability times the last index |
| Samples.QuantilesAgree | scripts/agent_utility_generated_common.py:397-405 | the 95th percentile, the general percentile and the bootstrap quantile are one function of the sorted sample |
| Samples.QuantileBounds | scripts/aggregate_agent_utility_phase_b2.py:76-83 | a quantile lies between the least and the greatest value, and both are attained |
| Samples.QuantileMonotone | scripts/aggregate_agent_utility_phase_b2.py:76-83 | a larger probability never gives a smaller quantile |
| Samples.PercentileMeaning | scripts/benchmark_decision_routing.py:489-497 | percentiles do not depend on input order, are monotone in the probability and respect any bounds of the sample |
| Wilson.InvertsScoreTest | scripts/benchmark_decision_routing.py:500-524 | a proportion is inside the interval if and only if the score test does not reject it |
| Wilson.ResultExactly | scripts/benchmark_decision_routing.py:500-509 | no interval without samples, an error exactly for successes out of range, and the critical value 1.959963984540054 |
| Wilson.EndsInUnit | scripts/benchmark_decision_routing.py:521-524 | the ends lie in the unit interval around the observed proportion and clamping changes nothing |
| Wilson.Reflection | scripts/benchmark_decision_routing.py:500-524 | swapping successes and failures reflects the interval about one half |
| Wilson.EndsMonotone | scripts/benchmark_decision_routing.py:500-524 | more successes never lower either end |
| HeldoutDesign.IdentityMeansBalanced | scripts/aggregate_agent_utility_v3_heldout.py:130-143 | the identity check passes if and only if every planned episode occurs exactly once and no other occurs |
| HeldoutDesign.ThreePerTask | scripts/aggregate_agent_utility_v3_heldout.py:130-148 | then every planned task has exactly three episodes in every condition, and no other task has any |
| HeldoutDesign.TaskValues | scripts/aggregate_agent_utility_v3_heldout.py:38-45 | the result maps exactly the occurring tasks, each to the mean pass value of its rows |
| Bootstrap.StratifiedCells | scripts/aggregate_agent_utility_v3_heldout.py:58-67 | the cells are the specified ones, and building them fails if and only if some task has no metadata |
| Bootstrap.DrawResample | scripts/aggregate_agent_utility_v3_heldout.py:77-82 | one resample draws, cell by cell, as many deltas as the cell has tasks |
| Bootstrap.PairedStratifiedBootstrap | scripts/aggregate_agent_utility_v3_heldout.py:48-95 | the method returns the specified report or failure, for every random stream |
| Resampling.CellsExactly | scripts/aggregate_agent_utility_v3_heldout.py:58-63 | there is one cell for each stratum and language that occurs, holding exactly its tasks in order |
| Resampling.OutcomeExactly | scripts/aggregate_agent_utility_v3_heldout.py:48-95 | for every random stream: it fails if and only if the task sets differ, a task has no metadata or there is no task; otherwise the interval ends are the values of rank (n-1)/40 and 39(n-1)/40, rounded down, among the n resampled means, each the average of what its slots drew |
| Resampling.EveryChoiceOccurs | scripts/aggregate_agent_utility_v3_heldout.py:75-82 | any choice of one task of the cell for each slot of each resample is made by some stream |
| Bootstrap.IntervalWithinDeltas | scripts/aggregate_agent_utility_v3_heldout.py:74-88 | the interval is ordered, and it and the observed delta lie within any bounds of the task deltas |
| Bootstrap.StratifiedIntervalIsExact | scripts/aggregate_agent_utility_v3_heldout.py:65-88 | if tasks of one stratum and language moved equally, the interval is the observed delta, whatever was drawn |
| Bootstrap.DeltaIsRateDifference | scripts/aggregate_agent_utility_v3_heldout.py:69-73 | after the identity check the bootstrap succeeds and its mean of task deltas is the difference of the two overall pass rates |
| Contrastive.SigmoidShape | benchmarks/bge_contrastive.py:68-73 | the two-branch sigmoid is strictly increasing and strictly between 0 and 1 |
| Contrastive.SigmoidReflects | benchmarks/bge_contrastive.py:68-73 | it is symmetric about one half |
| Contrastive.ScorePairs | benchmarks/bge_contrastive.py:76-87 | every score is the sigmoid of the logit pushed by its margin over the strongest sibling |
| Contrastive.ScoreExactly | benchmarks/bge_contrastive.py:68-87 | each score is the logistic function of the logit plus beta times its lead over the strongest other logit |
| Contrastive.NeverReorders | benchmarks/bge_contrastive.py:76-87 | scores compare exactly as the raw logits do |
| Contrastive.OnlyStrictMaximumGains | benchmarks/bge_contrastive.py:81-87 | against the baseline a score rises exactly for a strict maximum and falls exactly when a sibling beats it, for positive beta |
| Contrastive.ZeroBetaIsBaseline | benchmarks/bge_contrastive.py:81-87 | beta 0 gives the baseline |
| Cascade.CauchySchwarz | benchmarks/bge_cascade.py:58-66 | the squared dot product is at most the product of squared norms, for vectors of any length |
| Cascade.ClampIsIdle | benchmarks/bge_cascade.py:58-66 | the exact cosine is between -1 and 1, so clamping changes nothing |
| Cascade.TopTwo | benchmarks/bge_cascade.py:127-133 | the sorted ranking starts with the first maximum and continues with the best of the others |
| Cascade.ScorePairs | benchmarks/bge_cascade.py:116-156 | the outcome is decided by conditions on all similarities: all below the reject bar, one clear winner (scored one-hot), or the reranker; failures exactly as stated; scores stay in the unit interval when the reranker's do |
| Cascade.PathsPartition | benchmarks/bge_cascade.py:135-145 | the fast paths exclude each other and at most one option can be accepted |

## Left out

- The `schemarouter` planner, native indexes and persistence: the registry is a list of tools, and rankings and the structural top-k are arbitrary functions.
- The experimental branches of `run_generated_episode` (scoped tool surface, host call binding, empty-menu terminal, final-answer oracle, trace provenance, task digests).
- `_parse_tool_calls`: an agent output is already parsed, with nonempty call names, or malformed or overflowing; the text around parsed calls is arbitrary, which `EpisodeTheorems.TextCannotChangeTruth` shows does not matter.
- Token counts, latencies, `turn_rows`, `state_retrieval_events`, and the counters and rates that are plain sums over the log (extraneous calls, failures, policy blocks, validity rates).
- Hashing, JSON and HTML output, argument parsing and file reading; blob hashes are what the documents' functions return.
- Floating point and `round`: all statistics, and the derived columns of projection fixtures, are exact reals. `Numeric` comparison of JSON numbers is exact too.
- Python's `str` on values other than strings, which `contains_state` rules and identifier fields use: an arbitrary rendering function that is the identity on strings.
- The prose of queries and the languages they are written in: a query is any string with a visible character.
- The expected answers, tolerances and forbidden claims that fixtures carry for answer scoring, and the distractor endpoints that pad a catalog (any catalog that starts with the base tools is covered).
- The HTML tokenizer, `splitlines`, and the regular-expression digit class: tags, lines and the digit test are inputs.
- `sections` and `audit` of the translation audits, and the content hash of a review unit.
- The cluster bootstrap of the B2 report apart from its quantile, the two candidate-coverage summaries, and the product gates: sums and threshold comparisons over values modelled here.
- The other aggregators, which repeat the identity-check pattern.
- Loading models, embedding and reranking; the scorers start from arbitrary logits, similarities and reranker scores. Telemetry is not recorded.
- Iteration order of Python dictionaries where only an exact sum depends on it: the observed delta is summed over the sorted tasks.
- Wilson.WilsonInterval: takes the square root as a parameter, and its theorems hold for the non-negative root.
- StateAwareCount.StateAwareTurnCount: where some position does not show the route it needs, an agent may still get it shown by other calls that change the tracker state; there the lower bound on turns is `EpisodeTheorems.PassingCost`.
- Raising.RaisesExactly: under the state-aware condition it assumes that every position shows the route it needs; for other rankings `Raising.RaisesWhereReached` is exact, in terms of the episodes an agent can reach.
- EpisodeTheorems.BudgetHolds: that the structural planner returns no more routes than it is asked for is assumed, since the planner is a parameter.
- B2Suite.SuiteCompletion: the suite's `str(state.get(...))` is read on the strings the suite stores; no other value can be there.
