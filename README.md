# Meridian: a verified model of the risk pipeline

Meridian measures the delivery risk of a software project. Its Python backend
works on one project snapshot: developers, tasks with dependencies, sprints,
pull requests and messages. It proceeds in these steps:

- Signal extraction computes fifteen signals. Each has a raw value and a
  score clamped to [0, 1]. They cover dependency depth and centrality,
  workload concentration, scope growth, delay and communication.
- The risk formula combines the signals into five agent scores. It weights
  them, adds interaction penalties, and rounds and bands the result into a
  0–100 score and a level.
- Five agents explain the score: dependency, workload, scope, delay and
  comms. Each gives a risk contribution, a confidence rule, three evidence
  lines and a language-model summary with a fixed fallback.
- The supervisor shields each of the five agents from exceptions and
  assembles the final analysis.
- The what-if engine applies one of four mutations to a copy of the snapshot
  and reports the risk deltas. The mutations are: add developers, extend the
  deadline, remove scope, close PRs.
- The REST routes expose health, the analysis and the simulation.
- The websocket route checks the client's origin and streams the analysis as
  an ordered trace of events.

The React client has these parts:

- An API module decodes REST replies and owns the single live socket.
- A risk context folds one run's event stream into the page state: the
  analysis, the loading flag, the error, a ten-entry live feed, the backend
  status and the last update time. It falls back to one REST fetch when the
  stream fails.
- Badge and utility helpers map scores to levels and colours.
- Seven pages each hold a small rule: slider-to-mutation mapping, mitigation
  selection, the mitigation plan, remediation step progression, agent and
  signal statistics, and signup validation with a progress ticker.

## How the model is built

There is one Dafny module per source file, plus four shared modules:

- `Wrappers` holds `Option` and `Result`.
- `Records` holds the snapshot records, agent results and the analysis.
- `Text` holds string and number formatting.
- `Tally` holds counting and first-maximum helpers.

Pure code is written as functions and lemmas. Code that changes state step by
step is written as methods, each proved against a specification function:

- the memoised depth search;
- the tally loops;
- the what-if mutations on the copied snapshot;
- the websocket's event trace;
- the client's `Session`, `Transport` and `Socket` classes;
- the page classes, one field per piece of React state.

These modelling choices apply throughout:

- **Numbers.** Scores are exact reals. Timestamps are integer seconds.
- **The language model.** The outcome of `call_llm` is an input, `LlmCall`:
  `Returned(text)` or `Raised(message)`. `call_llm` itself
  (agents/base_agent.py:30-41) catches every failure of the request and
  returns the "LLM_ERROR" sentinel instead. So an unreachable or failing model
  appears as `Returned("LLM_ERROR")`, and the agents answer it with their fixed
  fallback. `Raised` stands only for an exception that escapes `call_llm`
  before the request is sent. One example is an error other than
  `ImportError` while importing the configuration (agents/base_agent.py:6-10).
  That path is rare, but it is the only one on which an unguarded agent fails
  and the supervisor builds its fallback record. The workload agent's own
  try/except guards exactly that path. JSON decoding is a function parameter.
- **Loading project data** is an `Option`, where `None` is a failed load.
- **Clocks.** The extraction time, the simulated now and the client's clock
  are parameters.
- **Client disconnects.** A client that disconnects from the websocket is a
  count of the events it accepts. It receives that prefix of the trace.
- **Concurrency.** Every handler is a sequence of steps. A method ends at
  each `await`.
- **Acyclicity.** The dependency graph is assumed acyclic. A ghost rank map
  witnesses this: each dependency ranks below its dependent.

Where the backend and the client define the same idea twice, each copy is
modelled as written, and lemmas relate the copies. Examples are the level
bands (40/60/75 on the server, 25/50/75 in the badge, 0.8/0.6/0.4 in the feed)
and the two copies of `levelFromScore`.

## Model

| member | source | states |
|---|---|---|
| Tally.Occ | core/signal_extractor.py:62-65 | an id's count is positive exactly when the id was seen, and at most the number of ids |
| Tally.Distinct | core/signal_extractor.py:62-65 | a counter's keys are exactly the ids seen, each once |
| Tally.BumpTallies | core/signal_extractor.py:62-65 | `d[k] += 1` on a `defaultdict(int)` keeps the counter holding each seen id's number of occurrences, keys in order of first appearance |
| Tally.MaxBy | core/signal_extractor.py:68 | `max(f(k) for k in ks)` bounds every value and is one of them; 0 for no keys |
| Tally.ArgMaxBy | core/whatif_engine.py:47 | `max(ks, key=f)` is a key attaining the maximum, the first one, and none exactly for no keys |
| Tally.MaxByAgree | core/signal_extractor.py:68 | functions that agree on the keys give the same maximum |
| Tally.ArgMaxByAgree | core/whatif_engine.py:47 | functions that agree on the keys give the same arg-max |
| Text.JoinSplit | agents/supervisor_agent.py:20 | Python's `split` is undone by `join` with the same separator |
| Text.SplitCharFree | agents/supervisor_agent.py:20 | no piece of a split on one character holds that character |
| Text.ReplaceFirstAt | react-app/src/context/RiskContext.tsx:79 | JavaScript's `replace` with a string pattern changes only its first occurrence, into the replacement |
| Text.ReplaceFirstAbsent | react-app/src/context/RiskContext.tsx:79 | a string without the pattern is returned unchanged |
| Text.Upper | react-app/src/context/RiskContext.tsx:79 | `toUpperCase` keeps the length and upper-cases each character |
| Text.NatToString | agents/dependency_agent.py:66-68 | a count is written as a non-empty string of decimal digits |
| Text.NatToStringValue | agents/dependency_agent.py:66-68 | `str(n)` of a count reads back as that count |
| Text.IntToStringValue | agents/delay_agent.py:36 | `str(n)` of an integer reads back as it, with a minus sign exactly when it is negative |
| Text.PercentTextValue | agents/dependency_agent.py:68 | `{:.0%}` writes the integer nearest to x * 100, ties to even, then "%", with a minus sign exactly when x is negative |
| Text.Fixed1Value | agents/delay_agent.py:50 | `{:.1f}` writes x * 10 rounded half to even, in tenths, with a minus sign exactly when x is negative: within 0.05 of x |
| Text.JsFixed1Value | react-app/src/pages/CommsPage.tsx:43 | `toFixed(1)` writes a value within 0.05 of x with x's sign, a half tenth rounded away from zero |
| Text.Strip | agents/dependency_agent.py:107 | `strip()` gives a slice of the text with only whitespace around it, neither end of it whitespace |
| Text.StripIdempotent | agents/dependency_agent.py:107 | stripping a stripped text changes nothing |
| Text.JsRound | react-app/src/api/meridianApi.ts:95 | `Math.round` gives the integer within a half of the value, halves rounded up |
| Text.Fixed1NegativeZero | agents/delay_agent.py:50 | `{:.1f}` writes a small negative value as "-0.0" and a small positive one as "0.0" |
| Text.RoundHalfEven | agents/dependency_agent.py:66-68 | Python's formatting rounds to an integer within a half, an integer value to itself |
| Text.Slice | react-app/src/context/RiskContext.tsx:82 | `slice(0, n)` is the first `n` elements, or all of them when there are fewer |
| Records.OpenTasks | core/signal_extractor.py:29 | the active tasks are exactly the tasks whose status is not "done", never more than the tasks |
| SignalExtractor.Limit | core/signal_extractor.py:10-12 | `_limit` lands in [0, 1], keeps a value already inside, sends values below to 0 and above to 1 |
| SignalExtractor.SafeDiv | core/signal_extractor.py:14-17 | `_safe_div` is 0 for a zero denominator and otherwise the quotient (r * den == num); a part of a whole is in [0, 1] |
| SignalExtractor.Ratio | core/signal_extractor.py:14-17 | a count taken from a collection, divided safely by its size, is in [0, 1] and 0 for an empty collection |
| SignalExtractor.Adjacency | core/signal_extractor.py:40 | the adjacency dictionary has a key for exactly the task ids |
| SignalExtractor.DepthMaxBounds | core/signal_extractor.py:48-50 | the running maximum over a task's dependencies bounds the depth of each of them |
| SignalExtractor.ChainWithinDepth | core/signal_extractor.py:42-52 | no dependency chain starting at a task has more edges than that task's `dfs_depth` |
| SignalExtractor.DfsDepth | core/signal_extractor.py:42-52 | the memoised search returns the node's depth, keeps every memo entry equal to its depth, only adds entries, and records the node |
| SignalExtractor.CriticalPath | core/signal_extractor.py:54-57 | critical_path_depth is the depth of some task and at least the depth of every task, and 0 without tasks |
| SignalExtractor.ComputeCriticalPath | core/signal_extractor.py:54-57 | the loop over the adjacency keys filling the memo, then its maximum, yields critical_path_depth |
| SignalExtractor.NonEmpty | core/signal_extractor.py:63-64 | one `depends_on` list keeps exactly its non-empty ids |
| SignalExtractor.DepIds | core/signal_extractor.py:62-64 | the ids fed to `dep_counts` are all non-empty |
| SignalExtractor.CountDeps | core/signal_extractor.py:63-65 | the inner loop extends the counter's tally by exactly the task's non-empty dependency ids |
| SignalExtractor.CountDependents | core/signal_extractor.py:61-65 | `dep_counts` maps each named id to its number of occurrences across all `depends_on` lists, keys in first-seen order |
| SignalExtractor.CentralityMax | core/signal_extractor.py:68 | dependency_centrality_max bounds every id's count, is reached by some id, and is 0 exactly when no id is named |
| SignalExtractor.CountOpenAssigned | core/signal_extractor.py:75-78 | `open_assigned` counts, per truthy assignee, the open tasks they hold |
| SignalExtractor.OverloadedCount | core/signal_extractor.py:81 | the overloaded developers are among the developers |
| SignalExtractor.MaxDevTasks | core/signal_extractor.py:87 | the count of some assignee's open tasks that bounds every assignee's, never exceeds the open tasks, and is 0 without assignees |
| SignalExtractor.CurrentSprint | core/signal_extractor.py:100-104 | the current sprint is the first whose [start, end] contains now; none exactly when no sprint does |
| SignalExtractor.MidSprintAdditions | core/signal_extractor.py:106-114 | without a current sprint there are no mid-sprint additions |
| SignalExtractor.BaselineCount | core/signal_extractor.py:118 | the baseline tasks are among the tasks |
| SignalExtractor.OpenPrs | core/signal_extractor.py:140 | the open pull requests are exactly those whose status is "open" |
| SignalExtractor.CollectRecentSenders | core/signal_extractor.py:155-158 | the loop collects exactly the senders of a message in the last 72 hours |
| SignalExtractor.SilentDevCount | core/signal_extractor.py:160 | the silent developers are among the active developers |
| SignalExtractor.CountThreadMessages | core/signal_extractor.py:165-167 | `thread_msg_counts` maps each thread id to its number of messages; the extraction reads the unanswered and total thread counts off it |
| SignalExtractor.SingleMessageThreads | core/signal_extractor.py:169-170 | the unanswered threads are among the distinct threads |
| SignalExtractor.Entry | core/signal_extractor.py:184-199 | a dictionary entry keeps the raw value and scores it as the value over its normaliser, clamped to [0, 1] |
| SignalExtractor.RawValues | core/signal_extractor.py:28-180 | each of the fifteen raw values is its count over the matching collection (active tasks, developers, threads, active developers), the count itself, the average PR age, or the scope growth rate |
| SignalExtractor.GrowthRate | core/signal_extractor.py:117-119 | `scope_growth_rate` is never negative, 0 without baseline tasks, and otherwise times the baseline count gives the tasks beyond the baseline |
| SignalExtractor.ToSignals | core/signal_extractor.py:184-200 | the dictionary has exactly the fifteen signal keys, each score in [0, 1]; the five lemmas below give each key's raw value and normaliser |
| SignalExtractor.DependencyEntries | core/signal_extractor.py:34-70 | `blocked_task_ratio`, `critical_path_depth` and `dependency_centrality_max` hold their raw values, scored over 0.40, 6 and 5 |
| SignalExtractor.WorkloadEntries | core/signal_extractor.py:73-96 | `overloaded_dev_ratio`, `task_concentration_index` and `unassigned_task_ratio` hold their raw values, scored over 0.50, 0.40 and 0.30 |
| SignalExtractor.ScopeEntries | core/signal_extractor.py:99-124 | `mid_sprint_task_additions`, `scope_growth_rate` and `out_of_scope_pr_count` hold their raw values, scored over 8, 0.40 and 5 |
| SignalExtractor.DelayEntries | core/signal_extractor.py:129-146 | `overdue_task_ratio`, `stale_task_ratio` and `avg_pr_age_days` hold their raw values, scored over 0.50, 0.60 and 15 |
| SignalExtractor.CommsEntries | core/signal_extractor.py:151-180 | `silent_dev_ratio`, `unanswered_thread_ratio` and `escalation_keyword_count` hold their raw values, scored over 0.50, 0.40 and 10 |
| SignalExtractor.RawSignals | core/signal_extractor.py:19-180 | the raw values use the critical path, the centrality maximum, the silent-developer count, the single-message threads and the busiest assignee as defined above |
| SignalExtractor.ExtractSignals | core/signal_extractor.py:19-208 | `extract_signals` returns the fifteen signals and the simulated time as given; each key carries its value defined from the data (blocked count over the open tasks, critical path, centrality maximum, ..., escalation count) and scores it as that value over its normaliser, clamped to [0, 1] |
| SignalExtractor.Extract | core/signal_extractor.py:19-208 | the extraction run as loops filling dictionaries equals `extract_signals` |
| RiskFormula.AgentScores | core/risk_formula.py:7-47 | the five agent keys, each scored as the mean of its three signal scores, a missing signal counting 0 |
| RiskFormula.AgentScoresInRange | core/risk_formula.py:11-39 | signal scores in [0, 1] give agent scores in [0, 1] |
| RiskFormula.WeightsSumToOne | core/risk_formula.py:53-59 | the weights cover exactly the five agents, are positive and sum to 1 |
| RiskFormula.Weighted | core/risk_formula.py:61 | the weighted sum of scores in [0, 1] is in [0, 1], and all scores 1 give 1 |
| RiskFormula.BaseScore | core/risk_formula.py:61 | base_score over the agent scores is in [0, 1] when they are, and 1 when all are 1 |
| RiskFormula.Penalty | core/risk_formula.py:64-74 | the penalty is 0, 0.04, 0.05 or 0.09; it includes 0.05 exactly when critical path and overload converge and 0.04 exactly when delay and silence do |
| RiskFormula.Clamp | core/risk_formula.py:78 | the clamp lands in [0, 1] and keeps a value already there |
| RiskFormula.Round2 | core/risk_formula.py:79 | `round(v, 2)` is a whole number of hundredths within 0.005 of v |
| RiskFormula.Round2InRange | core/risk_formula.py:78-79 | rounding a value of [0, 100] stays in [0, 100] |
| RiskFormula.TotalScore | core/risk_formula.py:77-79 | total_score is in [0, 100] and within 0.005 of the clamped sum times 100 |
| RiskFormula.Level | core/risk_formula.py:82-89 | LOW below 40, MODERATE below 60, HIGH below 75, CRITICAL otherwise, each band exactly its interval |
| RiskFormula.LevelMonotone | core/risk_formula.py:82-89 | a higher total never gives a lower band |
| RiskFormula.Dominant | core/risk_formula.py:50 | `max(..., key=...)` returns a key with the highest score, the first such key in order |
| RiskFormula.ComputeRiskScore | core/risk_formula.py:3-98 | `compute_risk_score`: agent scores, penalty, total in [0, 100], its band, a dominant key whose score is the highest, version "1.0" |
| RiskFormula.DominantFirstOfTies | core/risk_formula.py:41-50 | every agent listed before the dominant one scores strictly less |
| LlmReply.ParseReply | agents/dependency_agent.py:98-116 | the sentinel "LLM_ERROR" and an undecodable reply both give the fallback risk and reasoning; a decoded object gives its keys, each defaulting to the fallback |
| LlmReply.AgentReply | agents/dependency_agent.py:95-116 | an exception from the model call escapes the agent; returned text is parsed, the sentinel giving the fallback |
| LlmReply.GuardedReply | agents/workload_agent.py:82-106 | in the workload agent an exception from the call is read as the sentinel, so it ends in the fallback |
| LlmReply.PlainReplyNotUnwrapped | agents/dependency_agent.py:106-109 | a reply that does not start with a fence is decoded unchanged |
| LlmReply.JsonFenceUnwrapped | agents/dependency_agent.py:106-107 | "```json" + body + "```" is decoded as the stripped body when the body holds no fence |
| DependencyAgent.RiskContribution | agents/dependency_agent.py:15 | the agent's contribution is the risk formula's dependency score, in [0, 1] for scores in range |
| DependencyAgent.Confidence | agents/dependency_agent.py:18 | 0.8 exactly when the blocked-task score is below 0.3, else 1.0 |
| DependencyAgent.MostDependents | agents/dependency_agent.py:27-29 | none exactly without dependency ids; otherwise a non-empty id named as often as the centrality maximum, the first such in counter order |
| DependencyAgent.FindMostDependents | agents/dependency_agent.py:21-29 | the counter loop and `max(dep_counts, key=...)` give that id and its count, the centrality maximum |
| DependencyAgent.LongestPath | agents/dependency_agent.py:37-50 | `get_longest_path(node)` starts at the node and is a dependency chain through known tasks; that no such chain is longer is LongestPathIsLongest |
| DependencyAgent.BestPath | agents/dependency_agent.py:43-48 | the path kept by the loop over known dependencies is empty or starts at one of them, and is a chain of known tasks |
| DependencyAgent.BestAtLeast | agents/dependency_agent.py:43-48 | no known dependency's longest path is longer than the path the loop keeps |
| DependencyAgent.LongestPathIsLongest | agents/dependency_agent.py:37-50 | `get_longest_path(n)` is at least as long as every chain of known tasks starting at n |
| DependencyAgent.GetLongestPath | agents/dependency_agent.py:37-50 | the memoised search returns that path, keeps the memo sound and records the node |
| DependencyAgent.LongestAmong | agents/dependency_agent.py:52-57 | the chosen path is empty exactly for no keys, starts at one of them, and is at least as long as every key's path |
| DependencyAgent.LongestChain | agents/dependency_agent.py:52-57 | longest_chain is empty exactly without tasks, is a chain of known tasks and is at least as long as every task's path |
| DependencyAgent.LongestChainIsLongest | agents/dependency_agent.py:52-57 | no chain of known tasks is longer than longest_chain |
| DependencyAgent.ChainWithinCriticalPath | agents/dependency_agent.py:52-57 | the chain reported has at most one more task than the extractor's critical_path_depth |
| DependencyAgent.FindLongestChain | agents/dependency_agent.py:52-57 | the loop over `adj` with the shared memo gives longest_chain |
| DependencyAgent.FindingsOf | agents/dependency_agent.py:20-66 | the evidence reports the centrality maximum with its id, a chain within the critical path, and the blocked open tasks |
| DependencyAgent.Evidence | agents/dependency_agent.py:27-70 | there are three evidence lines |
| DependencyAgent.BlockedRatioMatchesCount | agents/dependency_agent.py:66-68 | on the extractor's signals, the ratio printed in the third line is the blocked count over the open tasks |
| DependencyAgent.AnalyzeSpec | agents/dependency_agent.py:5-126 | the result fails with the exception's message exactly when the model call raises; otherwise agent name, formula score, confidence and signal refs; for a returned reply the top risks and reasoning are the parsed reply's, so the fixed fallback for the sentinel and for a reply that does not decode; the evidence is the three lines of the findings (most dependents, longest chain, blocked count and ratio) |
| DependencyAgent.Analyze | agents/dependency_agent.py:5-126 | `analyze` with its counter and memo loops gives that result |
| WorkloadAgent.RiskContribution | agents/workload_agent.py:16 | the agent's contribution is the risk formula's workload score, in [0, 1] for scores in range |
| WorkloadAgent.Confidence | agents/workload_agent.py:19 | 0.85 exactly when the unassigned score is below 0.2, else 1.0 |
| WorkloadAgent.Rows | agents/workload_agent.py:30-44 | one row per developer with their open-task count, or without developers one per counted assignee in counter order |
| WorkloadAgent.LeaderOf | agents/workload_agent.py:35-44 | the leader is none with -1 for no rows; otherwise the first row with the largest count, which bounds every row |
| WorkloadAgent.Tabulate | agents/workload_agent.py:27-44 | the table loop gives one line per row and the running maximum with `count > max_tasks` is the leader |
| WorkloadAgent.LeaderWithinConcentration | agents/workload_agent.py:30-37 | the leader's count never exceeds the busiest assignee's count that the extractor uses |
| WorkloadAgent.LeaderWithoutDevelopers | agents/workload_agent.py:39-44 | without developers the leader is the busiest assignee, first in counter order |
| WorkloadAgent.FindingsOf | agents/workload_agent.py:21-55 | the evidence has a line per row in order, the leader of the rows and the unassigned open tasks |
| WorkloadAgent.OverloadLine | agents/workload_agent.py:49-52 | the second line says None exactly when no leader has a non-empty name and more than zero tasks |
| WorkloadAgent.Evidence | agents/workload_agent.py:46-58 | there are three evidence lines |
| WorkloadAgent.AnalyzeSpec | agents/workload_agent.py:5-116 | the result never fails: agent name, formula score, confidence and signal refs; the fallback when the call raises; for a returned reply the top risks and reasoning are the parsed reply's, so the fixed fallback for the sentinel and for a reply that does not decode; the evidence is the three lines of the findings (open-task table, leader, unassigned count) |
| WorkloadAgent.BuildRows | agents/workload_agent.py:30-44 | the rows read off the counter are the rows of the open assignees |
| WorkloadAgent.Analyze | agents/workload_agent.py:5-116 | `analyze` with its counter and table loops gives that result |
| ScopeAgent.RiskContribution | agents/scope_agent.py:23 | the agent's contribution is the risk formula's scope score, in [0, 1] for scores in range |
| ScopeAgent.Confidence | agents/scope_agent.py:26 | 0.9 exactly when the mid-sprint score is 0, else 1.0 |
| ScopeAgent.FindCurrentSprint | agents/scope_agent.py:34-38 | the loop with its `break` finds the first sprint containing now, as the extractor does |
| ScopeAgent.MidAdditionIds | agents/scope_agent.py:43-46 | one id per mid-sprint addition, and exactly the ids of such tasks |
| ScopeAgent.MidAdditions | agents/scope_agent.py:40-46 | the listed additions are as many as the extractor counts, none without a current sprint |
| ScopeAgent.CollectMidAdditions | agents/scope_agent.py:43-46 | the loop appends exactly those ids in task order |
| ScopeAgent.FindingsOf | agents/scope_agent.py:28-54 | the evidence reports the baseline count (at most the total), the additions the extractor counts and the orphan pull requests |
| ScopeAgent.Evidence | agents/scope_agent.py:31-57 | there are three evidence lines |
| ScopeAgent.AnalyzeSpec | agents/scope_agent.py:10-112 | the result fails with the exception's message exactly when the model call raises; otherwise agent name, formula score, confidence and signal refs; for a returned reply the top risks and reasoning are the parsed reply's, so the fixed fallback for the sentinel and for a reply that does not decode; the evidence is the three lines of the findings (baseline and total tasks, mid-sprint additions, orphan PRs) |
| ScopeAgent.Analyze | agents/scope_agent.py:10-112 | `analyze` with its sprint and additions loops gives that result |
| DelayAgent.RiskContribution | agents/delay_agent.py:23 | the agent's contribution is the risk formula's delay score, in [0, 1] for scores in range |
| DelayAgent.Overdue | agents/delay_agent.py:29-32 | the overdue list holds exactly the open tasks past their due date, as many as the extractor counts |
| DelayAgent.CollectOverdue | agents/delay_agent.py:29-32 | the loop appends exactly those tasks in task order |
| DelayAgent.Oldest | agents/delay_agent.py:35 | `min(..., key=due_date)` is an overdue task due no later than any other, the first such one |
| DelayAgent.MaxAge | agents/delay_agent.py:49 | `max(pr_ages)` bounds every open pull request's age and is one of them |
| DelayAgent.SumWithinMax | agents/delay_agent.py:47-49 | the ages add up to at most their number times the largest |
| DelayAgent.AverageWithinOldest | agents/delay_agent.py:47-50 | the average open-PR age reported never exceeds the oldest one reported |
| DelayAgent.FindingsOf | agents/delay_agent.py:28-52 | the evidence reports the overdue tasks the extractor counts, the stale count, and the average and oldest ages exactly when a pull request is open |
| DelayAgent.Evidence | agents/delay_agent.py:34-54 | there are three evidence lines |
| DelayAgent.AnalyzeSpec | agents/delay_agent.py:10-108 | the result fails with the exception's message exactly when the model call raises; otherwise agent name, formula score, confidence 1.0 and signal refs; for a returned reply the top risks and reasoning are the parsed reply's, so the fixed fallback for the sentinel and for a reply that does not decode; the evidence is the three lines of the findings (overdue tasks, stale tasks, PR ages) |
| DelayAgent.Analyze | agents/delay_agent.py:10-108 | `analyze` with its overdue loop and age list gives that result |
| CommsAgent.RiskContribution | agents/comms_agent.py:25 | the agent's contribution is the risk formula's comms score, in [0, 1] for scores in range |
| CommsAgent.DevMap | agents/comms_agent.py:32 | `dev_map` has every developer's id, each mapped to the display name of a developer with that id |
| CommsAgent.SilentIds | agents/comms_agent.py:31-39 | the silent developers are as many as the extractor counts |
| CommsAgent.SilentNames | agents/comms_agent.py:39 | the comprehension visits each silent id once, in some order, and names each through `dev_map` |
| CommsAgent.DistinctCardinality | agents/comms_agent.py:39 | a list of silent ids without repeats has as many entries as the set it lists |
| CommsAgent.CountThreads | agents/comms_agent.py:47-51 | the thread counter tallies the messages per non-empty thread id |
| CommsAgent.NonEmptyUnchanged | agents/comms_agent.py:50 | skipping empty ids changes nothing when no id is empty |
| CommsAgent.UnansweredMatchesExtractor | agents/comms_agent.py:47-53 | when every message names a thread, the agent's unanswered count is the extractor's numerator |
| CommsAgent.FindingsOf | agents/comms_agent.py:30-62 | one name per silent id visited, as many as the extractor's silent count, the unanswered threads and the recent escalations |
| CommsAgent.Evidence | agents/comms_agent.py:41-64 | there are three evidence lines |
| CommsAgent.AnalyzeSpec | agents/comms_agent.py:11-120 | the result fails with the exception's message exactly when the model call raises; otherwise agent name, formula score, confidence 0.75 and signal refs; for a returned reply the top risks and reasoning are the parsed reply's, so the fixed fallback for the sentinel and for a reply that does not decode; the evidence is the three lines of the findings (silent names, unanswered threads, escalations) |
| CommsAgent.Analyze | agents/comms_agent.py:11-120 | `analyze` visits the silent ids in some order and gives that result for it |
| SupervisorAgent.LastSegment | agents/supervisor_agent.py:20 | `split('.')[-1]` is a dot-free suffix of the name, the whole name when it has no dot |
| SupervisorAgent.SegmentAfterPackage | agents/supervisor_agent.py:20 | a module `pkg.name` in a dot-free package is reported as `name` |
| SupervisorAgent.FallbackNamesAreAgentNames | agents/supervisor_agent.py:20 | each of the five agent modules' fallback carries that agent's own name |
| SupervisorAgent.SafeAnalyze | agents/supervisor_agent.py:15-29 | `_safe_analyze` passes a result through unchanged, and turns an exception into the fallback record: the module's last segment, zero contribution and confidence, the error text after its prefix, one evidence line, no signal refs |
| SupervisorAgent.NamesAndKeys | agents/supervisor_agent.py:41-47 | the agents run in the order dependency, workload, scope, delay, comms, each named after its module and scored under its formula key |
| SupervisorAgent.DependencyOutcome | agents/supervisor_agent.py:40-42 | the dependency agent's outcome is named after it, scores its formula key, and fails exactly when its model call raises |
| SupervisorAgent.WorkloadOutcome | agents/supervisor_agent.py:40-43 | the workload agent's outcome never fails: it catches its own exceptions |
| SupervisorAgent.ScopeOutcome | agents/supervisor_agent.py:40-44 | the scope agent's outcome is named after it, scores its formula key, and fails exactly when its model call raises |
| SupervisorAgent.DelayOutcome | agents/supervisor_agent.py:40-45 | the delay agent's outcome is named after it, scores its formula key, and fails exactly when its model call raises |
| SupervisorAgent.CommsOutcome | agents/supervisor_agent.py:40-46 | the comms agent's outcome is named after it, scores its formula key, and fails exactly when its model call raises |
| SupervisorAgent.Outcome | agents/supervisor_agent.py:39-48 | the `i`-th agent's outcome has the `i`-th name and key, and can fail only for an agent other than the workload agent |
| SupervisorAgent.Assemble | agents/supervisor_agent.py:51-61 | `final_output` carries the formula's total in [0, 100], its level, scores, dominant key (a highest score) and penalty, the agents' results, the signals, the simulated clock and version "1.0" |
| SupervisorAgent.Entries | agents/supervisor_agent.py:39-49 | `gather` returns five results, the `i`-th the safe outcome of the `i`-th agent |
| SupervisorAgent.EntriesNamed | agents/supervisor_agent.py:39-49 | every entry, result or fallback, is named after its agent, in running order |
| SupervisorAgent.EntryNamed | agents/supervisor_agent.py:15-29 | whichever way an agent's outcome went, its entry carries its name |
| SupervisorAgent.RunFullAnalysis | agents/supervisor_agent.py:31-63 | the analysis holds the extracted signals, the five entries over them, the formula's score and level, the simulated clock and version "1.0" |
| SupervisorAgent.FailedIffRaised | agents/supervisor_agent.py:15-49 | an entry has zero confidence exactly when its agent is not the workload agent and its model call raised |
| Websocket.AllowedExtends | api/websocket.py:24-29 | the origin test is a prefix test: anything appended to an allowed non-empty origin stays allowed |
| Websocket.LookalikeOrigins | api/websocket.py:24-29 | an origin that merely begins like `http://localhost` passes, an `https` one does not |
| Websocket.StreamEntry | api/websocket.py:61-73 | the stream reports the agent's result, or a failure record under the name from the run list |
| Websocket.AgentEvents | api/websocket.py:58-76 | two events per agent run |
| Websocket.AgentEventsAt | api/websocket.py:58-76 | the `j`-th agent's `agent_start` and `agent_complete` sit at positions `2j` and `2j + 1` |
| Websocket.StreamResults | api/websocket.py:46-75 | the stream collects one result per agent of the run list |
| Websocket.StreamResultsAreEntries | api/websocket.py:46-75 | the stream's results are exactly the supervisor's entries for the same data and model replies |
| Websocket.EventsShape | api/websocket.py:37-94 | the successful trace is connected, signals_ready, a start and complete per agent in the fixed order, risk_score_ready, complete |
| Websocket.TraceShape | api/websocket.py:37-94 | with the data loaded, risk_score_ready carries the analysis the REST route answers with |
| Websocket.NoErrorInEvents | api/websocket.py:37-94 | the successful trace holds no error event |
| Websocket.ErrorOnlyOnFailedLoad | api/websocket.py:36-102 | an error event is sent exactly when loading the data failed, and then the trace is the greeting and that one error |
| Websocket.Take | api/websocket.py:96-97 | what a client that leaves early receives is a prefix of the trace, all of it when it stays |
| Websocket.Send | api/websocket.py:37 | a send is delivered exactly while the peer is still there, and appends just that event |
| Websocket.WebsocketAnalysis | api/websocket.py:21-102 | a rejected origin is closed with 1008 and sent nothing; an accepted one receives the intended trace up to the point the peer went away |
| Websocket.Stream | api/websocket.py:43-94 | after the greeting, the loaded data's trace is sent up to the peer's limit |
| Websocket.Runner | api/websocket.py:61-73 | running the `i`-th agent with the handler's fallback gives the `i`-th stream result |
| Websocket.StreamSignals | api/websocket.py:43-94 | signals_ready, the agent events and the closing events, cut where the peer left |
| Websocket.StreamAgents | api/websocket.py:57-94 | the agent loop and the final two events, cut where the peer left, with the analysis assembled from the collected results |
| Websocket.SendLast | api/websocket.py:93-97 | the closing sends stop at the first that fails |
| Websocket.TraceUnfolds | api/websocket.py:43-94 | the loaded trace is the greeting, signals_ready, the agent events and the assembled analysis |
| Websocket.SendAgents | api/websocket.py:58-76 | the loop completes exactly when the peer takes all ten agent events, then having collected every result; otherwise it stops where the peer left |
| Routes.Health | api/routes.py:14-16 | the health answer has exactly the keys status and system, with "ok" and "Meridian" |
| Routes.BuildMutation | api/routes.py:43-51 | the mutation carries the request's type and, for a known type, exactly that type's one parameter from the request; nothing else for an unknown type |
| Routes.MutationAsRequested | api/routes.py:43-54 | each known type makes the engine apply that mutation with the request's own field, and an unknown type leaves the data as it is |
| Routes.GetAnalysis | api/routes.py:18-32 | a 500 with the load-failure detail exactly when the state cannot be loaded; otherwise the supervisor's full analysis |
| Routes.SimulateRoute | api/routes.py:34-57 | a 500 with the load-failure detail exactly when the state cannot be loaded; otherwise the engine's result for the built mutation, which records the requested type |
| Routes.UnknownTypeNoDelta | api/routes.py:43-54 | a request of an unknown type is answered with zero total and agent deltas and no level change |
| WhatIfEngine.NewDevIds | core/whatif_engine.py:29-38 | one new id per iteration of `range(count)`, none for a count of 0 or less |
| WhatIfEngine.NewDevelopers | core/whatif_engine.py:31-37 | the appended developers carry those ids, in order |
| WhatIfEngine.PickedIsMin | core/whatif_engine.py:50-59 | the reassignment loop moves the smaller of `count * 3` and the number of open tasks of the most loaded developer |
| WhatIfEngine.MostOverloaded | core/whatif_engine.py:41-47 | none exactly when no open task is assigned; otherwise the assignee, first in order of first appearance, whose open-task count no other exceeds and every earlier one falls short of |
| WhatIfEngine.AddDevelopersSpec | core/whatif_engine.py:25-59 | the developers list gains exactly the new developers; with an assignee and a positive count the tasks are those of `Reassigned` for the most overloaded developer, the new ids and the limit 3 × count, otherwise they are unchanged; nothing else changes |
| WhatIfEngine.ReassignedOnlyMovesHeldTasks | core/whatif_engine.py:53-59 | only open tasks of the most loaded developer change, only in their assignee, and only to a new id |
| WhatIfEngine.AppendDevelopers | core/whatif_engine.py:29-38 | the loop appends the new developers and collects their ids in order |
| WhatIfEngine.ReassignTasks | core/whatif_engine.py:50-59 | the loop hands the `k`-th open task of the most loaded developer to `new_dev_ids[k % len]` while `k` is below the limit |
| WhatIfEngine.AddDevelopers | core/whatif_engine.py:25-59 | the `add_developers` branch |
| WhatIfEngine.Shifted | core/whatif_engine.py:65-69 | every open task's due date moves by `days` days, done tasks stay as they are |
| WhatIfEngine.ShiftedInverse | core/whatif_engine.py:61-69 | extending by `days` and then by `-days` gives the tasks back |
| WhatIfEngine.ExtendDeadline | core/whatif_engine.py:61-69 | the `extend_deadline` loop changes only the tasks, to their shifted version |
| WhatIfEngine.Eligible | core/whatif_engine.py:75-78 | the eligible tasks are exactly the non-baseline, non-done ones |
| WhatIfEngine.ToRemoveSelection | core/whatif_engine.py:81 | the last `task_count` eligible tasks; all of them for a count of at least their number, and also for 0; a negative count drops from the front |
| WhatIfEngine.Survivors | core/whatif_engine.py:85 | the kept tasks are exactly those whose id is not removed |
| WhatIfEngine.Without | core/whatif_engine.py:89 | a pruned dependency list holds exactly the dependencies not removed |
| WhatIfEngine.PruneDeps | core/whatif_engine.py:88-89 | every task keeps all its fields except `depends_on`, which is pruned |
| WhatIfEngine.PruneDependencies | core/whatif_engine.py:88-89 | the loop rewriting every surviving task's `depends_on` |
| WhatIfEngine.RemoveScope | core/whatif_engine.py:71-89 | the `remove_scope` branch changes only the tasks |
| WhatIfEngine.RemoveScopeLeavesNoReference | core/whatif_engine.py:82-89 | no surviving task is removed and no surviving dependency names a removed id |
| WhatIfEngine.RemoveScopeOnlyEligible | core/whatif_engine.py:75-85 | with unique task ids, only non-baseline, non-done tasks are removed |
| WhatIfEngine.RemoveScopeAdjacency | core/whatif_engine.py:85-89 | the new dependency graph is a subgraph of the old one without the removed nodes |
| WhatIfEngine.RemoveScopeRanked | core/whatif_engine.py:71-89 | removing scope keeps the dependency graph acyclic under the same ranks |
| WhatIfEngine.SortByCreation | core/whatif_engine.py:96 | the sort puts the open pull requests in creation order, keeping exactly the same elements |
| WhatIfEngine.SortPermutes | core/whatif_engine.py:96 | the sort is a permutation |
| WhatIfEngine.SortStable | core/whatif_engine.py:96 | the sort is stable: pull requests created at the same time keep their order |
| WhatIfEngine.ToCloseOldest | core/whatif_engine.py:95-98 | `pr_count` of the open pull requests are chosen (all when fewer), each open, none younger than one left open |
| WhatIfEngine.Closed | core/whatif_engine.py:101-104 | every chosen pull request is closed and merged at the simulated now; every other one is unchanged |
| WhatIfEngine.ClosePrs | core/whatif_engine.py:91-104 | the `close_prs` loop changes only the pull requests, to their closed version |
| WhatIfEngine.AddDevelopersSameEdges | core/whatif_engine.py:53-59 | reassignment leaves every task's id and dependencies in place |
| WhatIfEngine.ShiftedSameEdges | core/whatif_engine.py:65-69 | moving due dates leaves every task's id and dependencies in place |
| WhatIfEngine.MutationKeepsRanked | core/whatif_engine.py:21-104 | no mutation creates a dependency cycle: the ranks of the original graph still order the mutated one |
| WhatIfEngine.AgentDeltas | core/whatif_engine.py:115-119 | one delta per baseline agent, the simulated score (0.0 when missing) less the baseline |
| WhatIfEngine.ComputeAgentDeltas | core/whatif_engine.py:115-119 | the loop over the baseline agent scores builds exactly those deltas |
| WhatIfEngine.Score | core/whatif_engine.py:108-112 | a state's formula score covers the five agent keys and lies in [0, 100] |
| WhatIfEngine.Outcome | core/whatif_engine.py:114-143 | baseline and simulated summaries, a total delta in [-100, 100] that is their difference, a level change exactly when the levels differ, per-agent deltas, the mutation copied and version "1.0" |
| WhatIfEngine.Simulate | core/whatif_engine.py:19-143 | the simulated state stays acyclic, and the result compares the original's score with the mutated copy's |
| WhatIfEngine.UnknownMutationNoDelta | core/whatif_engine.py:22-112 | an unknown mutation type yields zero deltas and no level change |
| WhatIfEngine.Mutate | core/whatif_engine.py:21-104 | the dispatch applies the branch for `type`, keeping the graph acyclic |
| WhatIfEngine.ScoreState | core/whatif_engine.py:108-112 | extraction and scoring of one state |
| WhatIfEngine.Compare | core/whatif_engine.py:114-143 | the delta loop and the result dictionary |
| WhatIfEngine.RunSimulation | core/whatif_engine.py:19-143 | `run_simulation` as the source runs it gives the simulation's result |
| MeridianApi.RiskColor | react-app/src/api/meridianApi.ts:82-86 | 'critical' exactly from 75, 'warning' exactly in [50, 75), 'success' exactly below 50 |
| MeridianApi.HexFollowsColor | react-app/src/api/meridianApi.ts:82-92 | `riskHex` is the colour of `riskColor`'s class, and two scores share a hex exactly when they share a class |
| MeridianApi.ToDisplayScore | react-app/src/api/meridianApi.ts:94-96 | the integer nearest the percentage, in [0, 100] for a fraction in [0, 1] |
| MeridianApi.Spaced | react-app/src/api/meridianApi.ts:99 | every underscore, and nothing else, becomes a space |
| MeridianApi.Capitalised | react-app/src/api/meridianApi.ts:99 | only characters that start a word are upper-cased |
| MeridianApi.ToTitle | react-app/src/api/meridianApi.ts:98-100 | the title keeps the length and has no underscore; underscores become spaces, a character that starts a word (after the replacement) is upper-cased, every other character is kept, and no word of it starts with a lower-case letter |
| MeridianApi.ToTitleIdempotent | react-app/src/api/meridianApi.ts:98-100 | titling a title changes nothing |
| MeridianApi.SignalMetaShape | react-app/src/api/meridianApi.ts:110-126 | the catalogue lists the extractor's fifteen signal keys in order, three per agent group in the agents' order |
| MeridianApi.Receive | react-app/src/api/meridianApi.ts:135-149 | success exactly for an ok response, with its body; otherwise the `<what> failed: <status>` text, or the network error |
| MeridianApi.RequestAsSent | react-app/src/api/meridianApi.ts:141-149 | the server rebuilds exactly the type and the one parameter the client sent |
| MeridianApi.SimulationValue | react-app/src/api/meridianApi.ts:147-148 | a simulation exactly when the call succeeded with a simulation body |
| MeridianApi.SimulateAgainstServer | react-app/src/api/meridianApi.ts:141-149 | against this server, a simulation yields the engine's result for the mutation sent, or "Simulation failed: 500" when the state does not load |
| MeridianApi.GetAnalysisAgainstServer | react-app/src/api/meridianApi.ts:135-139 | against this server, `getAnalysis` yields the full analysis, or "Analysis fetch failed: 500" when the state does not load |
| MeridianApi.Socket.Close | react-app/src/api/meridianApi.ts:162 | closing a connecting or open socket moves it to CLOSING, and leaves a closing or closed one as it is |
| MeridianApi.Dispatch | react-app/src/api/meridianApi.ts:165-177 | an unparsable message reaches no callback; a parsed one reaches exactly the callback of its event, with the frame's own fields, when its event is known |
| MeridianApi.ServerEventsReachTheirCallbacks | react-app/src/api/meridianApi.ts:165-177 | every event the server sends reaches the callback meant for it |
| MeridianApi.Transport.ConnectWebSocket | react-app/src/api/meridianApi.ts:161-181 | a live previous socket is closed, a fresh connecting socket becomes `_ws` and is the only live one; other sockets are untouched |
| MeridianApi.Transport.CloseWebSocket | react-app/src/api/meridianApi.ts:183-185 | afterwards no socket is live; other sockets are untouched |
| RiskBadge.LevelFromScore | react-app/src/components/RiskBadge.tsx:15-20 | one of the four score levels: CRITICAL exactly from 75, WARNING exactly in [50, 75), MODERATE exactly in [25, 50), HEALTHY exactly below 25 |
| RiskBadge.LevelMonotone | react-app/src/components/RiskBadge.tsx:15-20 | a higher score never yields a better level |
| RiskBadge.HexFromScore | react-app/src/components/RiskBadge.tsx:23-28 | red exactly from 75, amber exactly in [50, 75), yellow exactly in [25, 50), green exactly below 25 |
| RiskBadge.HexMatchesLevel | react-app/src/components/RiskBadge.tsx:15-28 | two scores share a colour exactly when they share a level |
| RiskBadge.StyleFor | react-app/src/components/RiskBadge.tsx:31 | the style of the upper-cased level when it is one of the eight, the STABLE style otherwise |
| RiskBadge.StyleOfLevelName | react-app/src/components/RiskBadge.tsx:3-12 | every level name is styled by its own entry, in upper or lower case |
| RiskBadge.UnknownNameFallsBack | react-app/src/components/RiskBadge.tsx:31 | an empty or unknown level falls back to the STABLE style |
| RiskUtils.LevelFromScore | react-app/src/utils/riskUtils.ts:5-10 | `levelFromScore` gives one of the four score levels, CRITICAL exactly from 75 and HEALTHY exactly below 25 |
| RiskUtils.HexFromScore | react-app/src/utils/riskUtils.ts:12-17 | `hexFromScore` gives one of the four colours, red exactly from 75 and green exactly below 25 |
| RiskUtils.CopiesAgree | react-app/src/utils/riskUtils.ts:5-17 | the shared copy gives the badge's level and colour for every score |
| RiskContext.FeedHex | react-app/src/context/RiskContext.tsx:40-45 | red exactly from 0.8, orange exactly in [0.6, 0.8), yellow exactly in [0.4, 0.6), green exactly below 0.4 |
| RiskContext.FeedBandsDifferFromBadge | react-app/src/context/RiskContext.tsx:40-45 | the feed's cut-offs are not the API helper's: 0.7 is orange in the feed and amber there |
| RiskContext.FeedNameOfId | react-app/src/context/RiskContext.tsx:79 | an id `<base>_agent` shows as its base in capitals |
| RiskContext.FeedNamesOfAgents | react-app/src/context/RiskContext.tsx:79 | the five agents show as their formula keys in capitals, DEPENDENCY to COMMS |
| RiskContext.Push | react-app/src/context/RiskContext.tsx:80-83 | the new entry goes in front of at most nine earlier ones, so the feed holds at most ten |
| RiskContext.PushedNewestFirst | react-app/src/context/RiskContext.tsx:80-83 | after a run of pushes the feed is the newest ten entries, most recent first |
| RiskContext.StampOfIso | react-app/src/context/RiskContext.tsx:60-64 | an ISO-8601 time stamp shows as its date, a space, its time to the second, and ` UTC` |
| RiskContext.Started | react-app/src/context/RiskContext.tsx:68-71 | a run starts loading with an empty feed and the running text, keeping the analysis, error and backend flag |
| RiskContext.ScoreReadyReplacesAnalysis | react-app/src/context/RiskContext.tsx:56-66 | a score-ready payload replaces the analysis whole, marks the backend online, clears the error, sets the time stamp and ends loading; a good fallback fetch does the same |
| RiskContext.FailedFetchKeepsAnalysis | react-app/src/context/RiskContext.tsx:91-96 | a failed fallback fetch ends loading, reports the backend offline with the fixed error text, and keeps the last analysis |
| RiskContext.QuietCallbacks | react-app/src/context/RiskContext.tsx:75-98 | complete only ends loading; signals-ready, agent-start and error change no value; only agent-complete touches the feed |
| RiskContext.AgentCompletePushes | react-app/src/context/RiskContext.tsx:77-84 | an agent-complete payload adds exactly one entry in front, named and coloured after the agent, and the feed stays within ten |
| RiskContext.RunFeed | react-app/src/context/RiskContext.tsx:75-98 | the feed after a run of callbacks is the starting feed with the run's entries pushed on |
| RiskContext.StartedRunFeed | react-app/src/context/RiskContext.tsx:68-98 | after a run is started, the feed holds the last ten of its entries, most recent first |
| RiskContext.StreamRun | react-app/src/context/RiskContext.tsx:68-101 | a full stream leaves its analysis applied, loading ended, the backend online and the five agents' entries, the last agent first |
| RiskContext.LoadedRunAgainstServer | react-app/src/context/RiskContext.tsx:68-101 | against this server with the state loaded, the session ends with the server's full analysis and a feed naming the five agents from COMMS back to DEPENDENCY with their reasoning |
| RiskContext.FailedLoadAgainstServer | react-app/src/context/RiskContext.tsx:87-97 | against this server with the state unloadable, the stream's error starts the fallback, which fails with 500, so the session reports the backend unavailable and keeps its analysis |
| RiskContext.Session.constructor | react-app/src/context/RiskContext.tsx:47-54 | the provider starts with no analysis, not loading, no error, an empty feed, the loading text and the backend offline |
| RiskContext.Session.StartRun | react-app/src/context/RiskContext.tsx:68-75 | `connect` resets the run's state, closes a live previous socket and opens a fresh one, the only live socket |
| RiskContext.Session.Handle | react-app/src/context/RiskContext.tsx:75-98 | one callback moves the state as its handler says, and an error starts one fallback fetch |
| RiskContext.Session.OnMessage | react-app/src/context/RiskContext.tsx:75-98 | a message that reaches no callback changes nothing; otherwise the callback it reaches is handled |
| RiskContext.Session.ApplyAnalysis | react-app/src/context/RiskContext.tsx:56-66 | `applyAnalysis` sets every value it names and nothing else |
| RiskContext.Session.FallbackResult | react-app/src/context/RiskContext.tsx:89-96 | the fallback fetch's outcome is applied, or reported as the backend being unavailable |
| RiskContext.Session.Unmount | react-app/src/context/RiskContext.tsx:103-106 | unmounting leaves no live socket |
| SimulationPage.DefaultVals | react-app/src/pages/SimulationPage.tsx:33-35 | every slider starts at its default value |
| SimulationPage.BuildMutation | react-app/src/pages/SimulationPage.tsx:40-44 | the mutation has the slider's type and parameter key |
| SimulationPage.SliderMutations | react-app/src/pages/SimulationPage.tsx:19-44 | the developer count as set, the deadline in days (weeks times 7), task and PR counts never below 1, each under the key the server reads for its type |
| SimulationPage.ScenarioOf | react-app/src/pages/SimulationPage.tsx:52-58 | a row is named after its slider and succeeds exactly when the call yields a simulation |
| SimulationPage.Scenarios | react-app/src/pages/SimulationPage.tsx:51-59 | one row per slider |
| SimulationPage.ScenariosAt | react-app/src/pages/SimulationPage.tsx:51-59 | row `i` is slider `i`'s |
| SimulationPage.FirstSuccessIsFirst | react-app/src/pages/SimulationPage.tsx:49-55 | the hero is the first successful row's result, and there is none exactly when every row is an error |
| SimulationPage.RunSimulations | react-app/src/pages/SimulationPage.tsx:46-64 | the loop builds those rows in slider order and keeps the first success as the hero |
| SimulationPage.AllFailedShowsPlaceholder | react-app/src/pages/SimulationPage.tsx:66-67 | when every call fails the page shows the placeholder change 0 and score 94.2 |
| DelayPage.Toggled | react-app/src/pages/DelayPage.tsx:18-20 | the copy has flag `i` flipped and every other flag as it was |
| DelayPage.ToggleTwice | react-app/src/pages/DelayPage.tsx:18-20 | toggling the same box twice restores the flags |
| DelayPage.Selected | react-app/src/pages/DelayPage.tsx:23 | the selection is no longer than the list |
| DelayPage.FirstChecked | react-app/src/pages/DelayPage.tsx:23-28 | the lowest checked box below `n`, none exactly when no such box is checked |
| DelayPage.SelectedHead | react-app/src/pages/DelayPage.tsx:23-28 | the selection is empty exactly when no box is checked, and otherwise starts with the lowest checked box's mitigation, the one submitted |
| DelayPage.SelectedMembers | react-app/src/pages/DelayPage.tsx:23 | an entry is selected exactly when some checked box holds it |
| DelayPage.ResultOf | react-app/src/pages/DelayPage.tsx:29-35 | the card copies the baseline and simulated totals, the delta and both levels from the answer |
| DelayPage.ImprovedIffScoreFell | react-app/src/pages/DelayPage.tsx:43 | for the engine's delta, an improvement is exactly a simulated score below the baseline |
| DelayPage.DelayView.constructor | react-app/src/pages/DelayPage.tsx:14-16 | the page opens with the first two boxes checked, not applying and no result |
| DelayPage.DelayView.ToggleCheck | react-app/src/pages/DelayPage.tsx:18-20 | toggling changes box `i` and nothing else |
| DelayPage.DelayView.ApplyMitigations | react-app/src/pages/DelayPage.tsx:22-41 | with nothing checked nothing changes; otherwise only the first selected mitigation is sent, and the result is its answer's figures, or none when the call fails |
| DelayPage.InitialSubmission | react-app/src/pages/DelayPage.tsx:7-14 | the opening selection is the first two mitigations and submits the four-PR close-out |
| DelayPage.MitigationsKeyed | react-app/src/pages/DelayPage.tsx:7-11 | every mitigation names the parameter the server reads for its type |
| DependencyPage.ImpactNotPositive | react-app/src/pages/DependencyPage.tsx:10-16 | a plan whose every step lowers the score never raises it |
| DependencyPage.StaticImpact | react-app/src/pages/DependencyPage.tsx:10-16 | the five fixed steps promise 46 points in total |
| DependencyPage.PlanOf | react-app/src/pages/DependencyPage.tsx:35-39 | the current score and level default to 75 and HIGH; the projection is never negative, is the score less 46 or 0, exactly the score less 46 from 46 up, and never above a non-negative score |
| DependencyPage.StaticPlanIsDefaultPlan | react-app/src/pages/DependencyPage.tsx:35-43 | the placeholder plan (75, 29, HIGH) is the plan of the default score and level |
| DependencyPage.PlanFor | react-app/src/pages/DependencyPage.tsx:33-43 | the placeholder without an analysis, otherwise the plan of its score and level |
| DependencyPage.PlanWithinScore | react-app/src/pages/DependencyPage.tsx:35-39 | for a score in [0, 100] the projection lies between 0 and the score, and the level is the analysis's |
| DependencyPage.DependencyView.constructor | react-app/src/pages/DependencyPage.tsx:23-25 | the modal starts closed, not generating, with no plan |
| DependencyPage.DependencyView.GenerateMitigationPlan | react-app/src/pages/DependencyPage.tsx:27-46 | the modal opens and ends, on either path, with the plan for the analysis in context and generating off |
| DependencyPage.ActionCardMutation | react-app/src/pages/DependencyPage.tsx:52-55 | whatever the card, the request adds two developers, under the key the server reads |
| DependencyPage.ActionCardAddsTwo | react-app/src/pages/DependencyPage.tsx:52-55 | every action card's request makes the engine add exactly two developers |
| AgentsPage.Find | react-app/src/pages/AgentsPage.tsx:20 | `find` gives none exactly when no result has the id, and otherwise the first result that has it |
| AgentsPage.CardScore | react-app/src/pages/AgentsPage.tsx:61-62 | a card shows the rounded percentage of its agent's contribution, 0 when the agent is missing |
| AgentsPage.BandsAreBadgeLevels | react-app/src/pages/AgentsPage.tsx:26-27 | critical, warning and healthy are exactly the badge's CRITICAL, WARNING and lower two levels for the same rounded score |
| AgentsPage.BandsPartition | react-app/src/pages/AgentsPage.tsx:25-28 | every agent is counted in exactly one band |
| AgentsPage.Stats | react-app/src/pages/AgentsPage.tsx:23-30 | with an analysis, the one pass counts each band; without one, the placeholder counts 2, 1, 2 |
| SignalsPage.FilterGroup | react-app/src/pages/SignalsPage.tsx:21-23 | the filter keeps part of the catalogue, and all of it with no group set |
| SignalsPage.FilterMembers | react-app/src/pages/SignalsPage.tsx:21-23 | with a group set, the filter keeps exactly the catalogue entries of that group |
| SignalsPage.EveryMetaInItsTab | react-app/src/pages/SignalsPage.tsx:13-23 | every catalogue entry's group is one of the five tabs, and that tab shows it |
| SignalsPage.CountsPartition | react-app/src/pages/SignalsPage.tsx:26-28 | the high-risk, moderate and healthy counts add up to the number of signals present |
| SignalsPage.PageSignals | react-app/src/pages/SignalsPage.tsx:19 | no signals without an analysis |
| SignalsPage.TotalAndEmptyCounts | react-app/src/pages/SignalsPage.tsx:19-28 | the total is the catalogue's fifteen; without an analysis the three counts are 0 |
| SignalsPage.CardScore | react-app/src/pages/SignalsPage.tsx:76-77 | the rounded percentage of the signal's score, within 0.5 of it and in [0, 100] for a score in [0, 1]; 0 for a missing signal |
| SignalsPage.MissingSignalIsGreen | react-app/src/pages/SignalsPage.tsx:76-78 | a missing signal's card is green |
| SignalsPage.FractionNotInteger | react-app/src/pages/SignalsPage.tsx:81 | strictly between 0 and 1 no value is an integer, so that test never decides |
| SignalsPage.RawTextOf | react-app/src/pages/SignalsPage.tsx:81-83 | a percentage with one decimal exactly for a value strictly between 0 and 1, otherwise the value with its unit |
| SignalsPage.DisplayValue | react-app/src/pages/SignalsPage.tsx:79-84 | a dash exactly for a missing signal, otherwise the text of its value |
| CommsPage.Snapshot | react-app/src/pages/CommsPage.tsx:28-34 | a step list whose first `done` steps are done, the next one running when `running`, the rest pending |
| CommsPage.SnapshotInOrder | react-app/src/pages/CommsPage.tsx:31-35 | every such list reads done steps first, then at most one running step, then pending steps |
| CommsPage.StartChangesOnlyStep | react-app/src/pages/CommsPage.tsx:32 | starting step `i` changes step `i` alone, from pending to running |
| CommsPage.FinishChangesOnlyStep | react-app/src/pages/CommsPage.tsx:34 | finishing step `i` changes step `i` alone, from running to done |
| CommsPage.RemResultOf | react-app/src/pages/CommsPage.tsx:38-48 | without an analysis a dash and no score; otherwise the composite score with one decimal, no comms score exactly when no comms agent is in the results, and else `Math.round(riskContribution * 100)` of the first comms agent result |
| CommsPage.ServerCommsScore | react-app/src/pages/CommsPage.tsx:41-42 | against the server's five named results the comms score is the last agent's rounded percentage |
| CommsPage.CommsView.constructor | react-app/src/pages/CommsPage.tsx:17-21 | the panel starts closed and idle, every step pending, no result, not running |
| CommsPage.CommsView.Begin | react-app/src/pages/CommsPage.tsx:24-29 | refused with no change while a run is in progress; otherwise every step pending, the result cleared, the panel open and running |
| CommsPage.CommsView.StartStep | react-app/src/pages/CommsPage.tsx:32 | with the steps before `i` done, step `i` starts running and nothing else changes |
| CommsPage.CommsView.FinishStep | react-app/src/pages/CommsPage.tsx:34 | step `i` is done and nothing else changes |
| CommsPage.CommsView.Conclude | react-app/src/pages/CommsPage.tsx:37-49 | the panel complete, the result of the analysis in context set, the run over |
| CommsPage.CommsView.TriggerRemediation | react-app/src/pages/CommsPage.tsx:23-50 | nothing while a run is in progress; otherwise the run ends with every step done, the panel complete and the result of the analysis in context |
| CommsPage.AllDoneAtEnd | react-app/src/pages/CommsPage.tsx:31-35 | at the end of a run every step is done |
| SignupPage.Validate | react-app/src/pages/SignupPage.tsx:30-31 | the required-fields error exactly when a field is empty, the length error exactly when all are filled and the password is shorter than 6, and no error exactly otherwise |
| SignupPage.StepFor | react-app/src/pages/SignupPage.tsx:37 | every band's step lies between 0.8 and 2 |
| SignupPage.Next | react-app/src/pages/SignupPage.tsx:37-38 | a tick never passes 100, raises a progress below 100, and adds at least 0.8 unless it lands on 100 |
| SignupPage.RemainingFalls | react-app/src/pages/SignupPage.tsx:37-38 | every tick below 100 uses up at least one of the ticks still to come, so the ticker stops |
| SignupPage.ReachesFull | react-app/src/pages/SignupPage.tsx:36-44 | from any progress of at most 100 the ticker stays below 100 for a number of ticks and is exactly 100 after them |
| SignupPage.RisesUntilFull | react-app/src/pages/SignupPage.tsx:37-39 | before it is full every tick raises the progress, and none takes it past 100 |
| SignupPage.LastStageMeaning | react-app/src/pages/SignupPage.tsx:40-42 | no label exactly when no stage is reached; otherwise the label of a reached stage after which no stage is reached |
| SignupPage.SomeStageMatches | react-app/src/pages/SignupPage.tsx:6-12 | the first stage starts at 0, so every progress of at least 0 has a label |
| SignupPage.FindStage | react-app/src/pages/SignupPage.tsx:40-42 | the backward scan finds the last stage reached |
| SignupPage.SignupView.constructor | react-app/src/pages/SignupPage.tsx:17-23 | the form starts with no error, not loading, no progress and the first stage's label |
| SignupPage.SignupView.HandleSignup | react-app/src/pages/SignupPage.tsx:27-35 | an invalid form shows its error and changes nothing else; a valid one stores the user, starts loading and starts the ticker at 0 |
| SignupPage.SignupView.Tick | react-app/src/pages/SignupPage.tsx:36-47 | one tick raises the progress as `Next` does, labels it with the last stage reached, and at 100 stops the ticker with the ready label |

## Left out

**Files and operations outside the model.**

- Reading the project file and `get_data_path` are modelled only by their
  outcome, an `Option` of the snapshot.
- The thread pool and asyncio in the supervisor and the websocket, and the
  interleavings at client `await`s and React's stale closures, are left out.
  Every handler is modelled as sequential steps.
- The routes' 500 paths for exceptions other than a failed load are left out:
  "Internal analysis failed." and "Simulation failed.". In the model, the
  only exception is one escaping `call_llm`, and the supervisor absorbs it.
- The extraction timestamp (`extracted_at`) is left out. It is clock output.
- `getHealth` and `fetchMonteCarlo` in the API module are left out. They are
  plain fetch wrappers with no logic.
- `WS_URL` and `window.location` are left out. They are configuration.
- The Monte Carlo panel and `core/monte_carlo.py` are not part of this model:
  random sampling over floats.
- The context-only pages, the initialisation page, the PDF generator, the
  authentication context and each module's `__main__` block are not part of
  this model. They are presentation or fixtures.
- The base agent's HTTP request to the language model is not part of this
  model. Its outcome is an input: a reply text (the "LLM_ERROR" sentinel when
  the request failed), or an exception that escaped `call_llm` before the
  request.

**Representation of inputs.**

- ISO-8601 parsing and formatting are left out. Timestamps are integer
  seconds.
- A record with a missing or empty due date, update time or message time is
  not distinguished from one with such a field. The truthiness tests on those
  strings are therefore not modelled.
- Payloads of the wrong shape, missing JSON fields and NaN are left out.
  Replies and events decode into closed datatypes, with `Malformed` and
  `Unknown` events for the rest.
- The depth search and the longest path require the ghost rank map. The
  source recurses without bound on a cyclic graph, and that behaviour is left
  out.
- Socket `readyState` transitions after CLOSING, and messages that arrive
  after a close, are left out.

**Numeric and text semantics.**

- RiskFormula.Round2: rounds half up on exact reals. Python's `round(…, 2)`
  rounds half to even on doubles, so the two can differ on a tie or a
  representation error.
- Text.RoundHalfEven and Text.Fixed1: these stand for Python's `{:.0%}` and
  `{:.1f}` formatting on exact reals, not on doubles. A negative value that
  rounds to zero keeps its minus sign ("-0.0"), as in Python. The negative
  zero of a double has no counterpart among the reals.
- Text.Strip: Python's `str.strip()` is modelled with ASCII whitespace only
  (space, tab, line feed, carriage return, vertical tab, form feed). Unicode
  whitespace such as U+00A0 or U+2028 around a fenced reply is kept.
- Text.JsRound and Text.JsFixed1: these stand for JavaScript's `Math.round`
  and `toFixed(1)` on exact reals. Float representation error is not
  modelled.
- SignupPage.Next: the progress ticker adds exact reals, so the
  floating-point drift of repeated `+ 0.8` is not modelled.
- SignupPage.Validate: the password length counts characters, not UTF-16
  code units.
- Text.Upper: `toUpperCase` and the `\w` boundary in `toTitle` are
  ASCII-only.
- SignalsPage.RawTextOf: a value with its unit is kept as a number and unit.
  The browser's decimal rendering of that number is left out.

**Client side effects.**

- Toasts, `setTimeout`/`setInterval` delays and `navigate`/`login` after
  signup are left out.
- The PDF export of the mitigation plan is left out.
- The `Math.random` confidence shown on the simulation page is left out.
- `console.error` logging is left out.
- Colour helpers that only style markup are left out.
- `localStorage` is the `storedUser` field of the signup page.

**Contracts stated weaker than the source.**

- DependencyAgent.Evidence: the contract states only that there are three
  lines. The counts in the lines are stated by DependencyAgent.FindingsOf
  and its lemmas.
- WorkloadAgent.Evidence: the contract states only that there are three
  lines. The counts are stated by WorkloadAgent.FindingsOf and
  WorkloadAgent.Tabulate.
- ScopeAgent.Evidence: the contract states only that there are three lines.
  The counts are stated by ScopeAgent.FindingsOf.
- DelayAgent.Evidence: the contract states only that there are three lines.
  The ages and counts are stated by DelayAgent.FindingsOf.
- CommsAgent.Evidence: the contract states only that there are three lines.
  The counts are stated by CommsAgent.FindingsOf.
- SignalsPage.FilterGroup: states the length bound and the no-group case
  only. SignalsPage.FilterMembers states which entries a group keeps.
- DelayPage.Selected: states the length bound only. DelayPage.SelectedMembers
  and DelayPage.SelectedHead state which mitigations are selected.
