# RAVE refinement loop and model catalogue, in Dafny

This project models the core of the RAVE agent: a LangGraph workflow that
improves an answer to a question in rounds. Each round has five steps:

1. the **evaluator** scores the current attempt on four criteria (completeness, accuracy, relevance, clarity) and records the attempt, the score and the feedback;
2. the **gap analyzer** lists what the attempt lacks;
3. the **query generator** turns the gaps into search queries;
4. **search** runs the queries;
5. the **response generator** writes a new attempt from the results.

Every step is left through a conditional edge. The run goes on only when the step did not return `{"error": ...}`. After the response generator, it also needs the stopping rule `should_continue`, which applies three rules: an iteration budget, an all-criteria score threshold and a stagnation test.

The project also models the catalogue of OpenAI model descriptors and its lookup by name.

Modules:

- `Common` (common.dfy): the `Option` and `Result` values used throughout. `Result` is a value or the message of the exception that prevented it.
- `Settings` (settings.dfy): the agent constants of backend/config/settings.py: `MAX_ITERATIONS = 3`, `SCORE_THRESHOLD = 0.9`, `IMPROVEMENT_THRESHOLD = 0.05` and `DEFAULT_MODEL = "gpt-4"`.
- `Text` (text.dfy): Python's `str.split`, `str.strip` (with the `str.isspace` character set), `"\n".join` and `startswith`. It also holds the two list comprehensions that turn a model reply into a list of lines and a list of queries.
- `Scores` (scores.dfy): the `Scorecard`, the threshold and stagnation comparisons, and the range check the tests expect of the constructor (see Findings).
- `ModelCatalogue` (models.dfy): the nineteen `OpenAIModel` descriptors, `DEFAULT_MODEL`, `DEFAULT_EMBEDDING_MODEL` and `get_model_config`.
- `RaveGraph` (graph.dfy): the graph's nodes, its edge set and the routing of each conditional edge.
- `Rave` (rave.dfy): the backend state record, the five steps and the stopping rule.
  - The state record is a class, `State`, whose methods update it in place. Histories are sequences that the steps reassign. `View()` gives the record's value as a `Snapshot`.
  - Every call to a language model or to the search tool is an oracle parameter: a function from the inputs the source passes to that call to the reply, or to the message of the exception the call raised.
  - `StepResult` gives what one step hands back and the state it leaves, as a function of the state before and the oracles.
  - `Run` executes the compiled graph from START to END. It also returns, as a ghost value, the trace of states it passed through: each is `StepResult` of the step before, so the whole run is a function of the initial state and the oracles.
  - The evaluator and `Run` take a flag `checked` that selects the scorecard constructor: `false` is the source as written, which records any score; `true` is the range check the tests expect (see Findings).
- `RaveSrc` (rave_src.dfy): what differs in the earlier copy in src/agents/rave_agent.py.
  - Its stopping rule has literal constants and is proved to be the backend's rule.
  - Its graph lacks the START edge.
  - Its steps and its `validate_state` are those of the backend, so they are `Rave`'s members; the rows citing src lines say so.

Scores are exact reals. Search results are their `str()` rendering, so that the response generator's `"\n".join` is exact.

## Model

| member | source | states |
|---|---|---|
| Text.Split | backend/agents/rave_agent.py:145 | `s.split("\n")` yields at least one piece, and no piece contains the separator |
| Text.JoinSplit | backend/agents/rave_agent.py:145 | joining the pieces of a split with the separator gives back the original string |
| Text.SplitJoin | backend/agents/rave_agent.py:227 | splitting a join of separator-free parts gives back exactly those parts |
| Text.SplitPrefix | backend/agents/rave_agent.py:145 | splitting `a + t` (with `a` separator-free) glues `a` onto the first piece of `t`'s split and keeps the rest |
| Text.StripLeftShape | backend/agents/rave_agent.py:146 | `lstrip` returns a suffix of its input, everything it drops is whitespace, and the result does not start with whitespace |
| Text.StripRightShape | backend/agents/rave_agent.py:146 | `rstrip` returns a prefix of its input, everything it drops is whitespace, and the result does not end with whitespace |
| Text.StripShape | backend/agents/rave_agent.py:146 | `strip()` yields a string with no whitespace at either end, no longer than its input |
| Text.StripSlice | backend/agents/rave_agent.py:146 | `strip()` is the slice between the leading and trailing whitespace; everything dropped is whitespace |
| Text.StripStripped | backend/agents/rave_agent.py:146 | `strip()` leaves a stripped string unchanged, so it is idempotent |
| Text.StripKeepsAbsent | backend/agents/rave_agent.py:146 | a character absent from a line is absent from the stripped line |
| Text.CleanLinesShape | backend/agents/rave_agent.py:146 | `[g.strip() for g in lines if g.strip()]` keeps at most the input's count, and every entry is non-empty and stripped |
| Text.CleanLinesMembership | backend/agents/rave_agent.py:146 | an entry is in the cleaned list if and only if it is non-empty and is the strip of some input line |
| Text.CleanLinesFixed | backend/agents/rave_agent.py:146 | a list of non-empty stripped lines is left exactly as it is |
| Text.ReplyLinesShape | backend/agents/rave_agent.py:145-146 | the gap list of a reply holds non-empty, stripped, newline-free lines |
| Text.ReplyLinesOfJoin | backend/agents/rave_agent.py:145-146 | a list of such lines, joined with newlines and parsed again, comes back unchanged |
| Text.DropBoilerplateMembership | backend/agents/rave_agent.py:171 | a line survives the filter if and only if it was in the list and does not start with one of the four prefixes |
| Text.QueryLinesFilters | backend/agents/rave_agent.py:170-171 | the one-pass clean-up of the reply's pieces equals cleaning the lines first and then dropping those that start with "Gaps:", "Original Query:", "Previous Queries:" or "With this information" |
| Text.ReplyQueriesShape | backend/agents/rave_agent.py:170-171 | every query of a reply is non-empty, stripped, newline-free, and free of the four prefixes |
| Text.ReplyQueriesMembership | backend/agents/rave_agent.py:170-171 | a query is kept if and only if it is a cleaned reply line without one of the four prefixes |
| Scores.AsWrittenScorecard | backend/agents/rave_agent.py:50-55 | as written, the constructor accepts every scorecard unchanged, so it differs from the validated constructor exactly on the out-of-range ones |
| Scores.AsWrittenAcceptsOutOfRange | backend/agents/rave_agent.py:50-55 | as written, the scorecard with completeness 1.5 is accepted although it is out of range |
| Scores.Validate | tests/test_backend/test_rave_agent.py:44-50 | the corrected constructor succeeds if and only if every criterion lies in [0, 1], and then keeps the values unchanged |
| Scores.Construct | backend/agents/rave_agent.py:116 | the evaluator's construction of the scorecard rejects only when checked, and then exactly the out-of-range scorecards; whatever it accepts is kept unchanged |
| Scores.ValidateMatchesTests | tests/test_backend/test_rave_agent.py:29-50 | the corrected constructor keeps the test's valid scorecard field for field and rejects the 1.5 one |
| ModelCatalogue.MembersComplete | backend/config/models.py:4-240 | the enumeration has nineteen members, iterated in declaration order, each exactly once |
| ModelCatalogue.TemperatureSupport | backend/config/models.py:8-240 | `supports_temperature` is False exactly for the four O-series and the two embedding models |
| ModelCatalogue.NamesDistinct | backend/config/models.py:8-240 | no two members carry the same `"name"` |
| ModelCatalogue.FindIndex | backend/config/models.py:248-250 | the search returns the first position whose name matches, and returns none if and only if no entry has that name |
| ModelCatalogue.GetModelConfig | backend/config/models.py:246-251 | the lookup succeeds if and only if some member has that name, returns a member's descriptor with that name, and otherwise fails with "Model <name> not found in configuration" |
| ModelCatalogue.LookupUnique | backend/config/models.py:246-250 | looking up a member's name returns that member's own descriptor |
| ModelCatalogue.DefaultModelResolves | backend/config/models.py:243 | the default model is "gpt-4o", and its lookup returns the GPT4O entry |
| ModelCatalogue.DefaultEmbeddingModelResolves | backend/config/models.py:244 | the default embedding model is "text-embedding-3-small", and its lookup returns that entry |
| ModelCatalogue.AgentModelResolves | backend/config/settings.py:17 | the agent's model "gpt-4" is in the catalogue, with an 8192-token context window |
| RaveGraph.Route | backend/agents/rave_agent.py:307-350 | every edge leads to the step's successor or to END, and to the successor if and only if there was no error (and, after the response generator, `should_continue` holds) |
| RaveGraph.RouteFollowsEdges | backend/agents/rave_agent.py:305-350 | every routing decision follows an edge of the compiled graph, and the five cycle edges the tests require are present |
| RaveGraph.CycleAt | backend/agents/rave_agent.py:296-300 | every position of an error-free run is one of the five step nodes |
| RaveGraph.SuccessorOfCycle | backend/agents/rave_agent.py:307-350 | following the True branch from the i-th step of the cycle gives the (i+1)-th |
| Rave.ShouldContinue | backend/agents/rave_agent.py:242-251 | continuing requires a valid state and fewer than MAX_ITERATIONS scores, whatever the score values |
| Rave.ShouldContinueRules | backend/agents/rave_agent.py:253-276 | with two or more scores, stop when every latest criterion is >= 0.9 or every criterion moved by < 0.05; continue with a valid state and fewer than two scores, or within budget when neither rule fires |
| Rave.PerfectFirstScoreContinues | backend/agents/rave_agent.py:253 | a single perfect score does not stop the loop, because the threshold is checked only from two scores on |
| Rave.CollectFailure | backend/agents/rave_agent.py:195-208 | the search fails if and only if some query's call raises, and then with the message of the first such call |
| Rave.RunQueries | backend/agents/rave_agent.py:195-201 | the search loop returns exactly what `Collect` specifies: the results in query order, or the first failing call's message |
| Rave.CollectPrefixFailure | backend/agents/rave_agent.py:195-208 | once a prefix of the queries has failed, the whole search fails with that message |
| Rave.CollectOne | backend/agents/rave_agent.py:196-201 | a single successful query yields exactly that query's results |
| Rave.CollectConcat | backend/agents/rave_agent.py:195-201 | searching two query lists one after the other concatenates their results in query order |
| Rave.AsWrittenEvaluatorLeavesRange | backend/agents/rave_agent.py:116-121 | from any valid state whose scores are in range, when the reply scores completeness 1.5 with feedback, the evaluator step as written (`StepResult` unchecked) succeeds and leaves a state with a score out of range, while the checked step returns the range error and changes nothing |
| Rave.StepResult | backend/agents/rave_agent.py:93-240 | a step returns an error exactly when it fails on the state it was given: the state is invalid, or the step's own call raises (for the evaluator, its reply is unusable, lacks the score or the feedback, or holds an out-of-range score when checked) |
| Rave.StepKeepsRun | backend/agents/rave_agent.py:307-350 | after one more step and its conditional edge, the run is at the next node of the cycle or at END, with the evaluation count, the budget, the error rule and the stopping rule as before, and it has either made an evaluation or moved to a step of lower rank |
| Rave.StepKeepsAttempt | backend/agents/rave_agent.py:93-240 | no step clears the current attempt: each leaves it as it was, except a successful response generator, which replaces it with the language model's reply (line 236) |
| Rave.TraceKeepsAttempt | backend/agents/rave_agent.py:278-293 | every state of a run that started with a current attempt holds one, so every conditional edge (which slices `current_attempt` in `trace_transition`, line 286) is given one |
| Rave.NoAttemptStopsAtOnce | backend/agents/rave_agent.py:93-96 | a run started without a current attempt takes one step: the evaluator returns "Invalid state" and leaves the state unchanged, and its edge leads to END |
| Rave.EvaluationBudget | backend/agents/rave_agent.py:249 | a run from empty histories may evaluate MAX_ITERATIONS times, and every run may evaluate at least once |
| Rave.State.constructor | tests/test_backend/test_rave_agent.py:77-90 | the initial state has empty histories, no scorecard, and no gaps, queries or results |
| Rave.State.Evaluator | backend/agents/rave_agent.py:93-126 | on an invalid state, "Invalid state" with nothing changed. On an unusable reply or a missing score, the error with nothing changed; when `checked`, an out-of-range score too. On missing feedback, the scorecard is set and the response and score appended before the error. Otherwise the scorecard is set and exactly one response, score and feedback appended. The histories only grow and keep alignment, lockstep on success, and (when `checked`) the score range. `checked` false is the source as written; true is the constructor the tests expect. The src copy at src/agents/rave_agent.py:185-218 is the same step |
| Rave.State.GapAnalyzer | backend/agents/rave_agent.py:128-152 | on an invalid state or a failed call, an error with nothing changed; otherwise only the current gaps change, to the reply's cleaned lines, asked with the latest feedback or "Initial attempt". The src copy at src/agents/rave_agent.py:220-244 is the same step |
| Rave.State.QueryGenerator | backend/agents/rave_agent.py:154-180 | on an invalid state or a failed call, an error with nothing changed; otherwise the new queries are the reply's cleaned, prefix-free lines, and the query history is extended by exactly that list. The src copy at src/agents/rave_agent.py:246-272 is the same step |
| Rave.State.Search | backend/agents/rave_agent.py:182-210 | runs the new queries, or the gaps when there are none. Any failing call gives its error with nothing changed. Otherwise the results (concatenated in query order) are stored and appended to the result history. The src copy at src/agents/rave_agent.py:274-302 is the same step |
| Rave.State.ResponseGenerator | backend/agents/rave_agent.py:212-240 | on an invalid state or a failed call, an error with nothing changed; otherwise the reply replaces the current attempt, asked with the newline-joined results (or gaps). The src copy at src/agents/rave_agent.py:304-332 is the same step |
| Rave.State.RunNode | backend/agents/rave_agent.py:296-300 | the step of the node hands back `StepResult`'s outcome and leaves exactly `StepResult`'s state, so it returns an error exactly when it fails on the state it was given (an invalid state, or its own call failing); only the evaluator touches the scores, adding at most one (exactly one on success); every step keeps the histories growing and the query unchanged |
| Rave.State.Transition | backend/agents/rave_agent.py:307-350 | one step plus its conditional edge: the outcome and the new state are `StepResult` of the node on the state before, the next node is where the edge routes that outcome and `should_continue`, the run's invariant is kept, and either one more evaluation is made or the run moves to a step of lower rank |
| Rave.State.Run | backend/agents/rave_agent.py:305-350 | the run's ghost trace starts at the initial state and ends at the final one; each state is what the i-th step of the cycle, in the round of its evaluations so far, left of the one before; every step but the last succeeded and went on through its edge; the last step's outcome is the run's status and its edge leads to END. A run evaluates at least once and at most the budget allows (at most MAX_ITERATIONS from empty histories). It ends in an error exactly when its last step failed on the state that step was given. A run without an error ends after the response generator, with one score per evaluation and `should_continue` false. The histories only grow |
| RaveSrc.ShouldContinue | src/agents/rave_agent.py:334-368 | the stopping rule with literal constants 3, 0.9 and 0.05 is the backend's stopping rule, on every state |
| RaveSrc.SrcRoutesLikeBackend | src/agents/rave_agent.py:388-448 | the src graph routes every step as the backend does, but its edge set is the backend's without START -> evaluator, so no edge leaves START into the cycle |

## Left out

- Language-model calls, the prompt templates (backend/agents/utils/prompts.py) and `json.loads` of replies are external and non-deterministic. Each is an oracle parameter. The evaluator's oracle reports an unusable reply with the exception's message, or else the score object and the feedback entry, each possibly missing.
- Tavily search (`TavilySearchResults`) is network I/O. It is an oracle from query to reply; `MAX_SEARCH_RESULTS` only configures that service.
- Oracle determinism: each oracle's reply (`Rave.Oracles`) is a function of the round and the call's inputs, so two identical calls in one round get the same reply. The source's services need not answer alike: a query listed twice in one search step (backend/agents/rave_agent.py:196-197) may get different results, or fail only once. No proof depends on this determinism.
- Logging and the logging setup are side effects with no influence on routing.
- `trace_transition` (backend/agents/rave_agent.py:278-293, src/agents/rave_agent.py:371-385) is called by every conditional edge before its `"error"` test, and it evaluates `state['current_attempt'][:200]`. With a `None` attempt that raises `TypeError`, so the graph raises instead of ending. The model does not have that exception: it routes such a run to END with "Invalid state". Rave.NoAttemptStopsAtOnce shows that this run is exactly the one started without an attempt, which stops after its first step; Rave.TraceKeepsAttempt shows that the edges of every other run are given an attempt.
- The `messages` field of the state record is never read or written by the steps.
- Scores are IEEE floats in the source; the model uses exact reals, so `abs(a - b) < 0.05` is exact.
- LangGraph's own semantics are not modelled. This covers how it merges a node's returned dictionary into the state, whether it accepts the `"error"` key (not declared in the state schema), and whether key assignments on the node's input survive an error return. The model treats the state record as one object that each step updates in place: an update made before an exception persists, and a returned error ends the run.
- Aliasing: the source's history objects are shared Python objects mutated in place. The model holds them as values that the steps reassign; no other holder of those objects is modelled.
- The toy `step_1`/`step_2` fan-out and the two-field `State` of src/agents/rave_agent.py:33-68 use parallel `Send` with random sleeps; they are not part of the refinement loop.
- The Streamlit front ends, the knowledge-base merge, checklist scoring and URL scraping are referenced by imports but not defined in the agent code, so there is nothing to model.
- `settings.DEFAULT_MODEL` ("gpt-4", the agent's model) and `models.DEFAULT_MODEL` ("gpt-4o") are both modelled and differ as in the source.
- `get_model_config` never changes the catalogue. This holds because the model is a pure function; no separate statement is made.
- Building the language-model client, the prompt templates and the search tool happens outside the `try` blocks (backend/agents/rave_agent.py:98-99, 136-137, 159-160, 192, 222-223). An exception raised there leaves the graph instead of becoming an `{"error": ...}` reply; the model has no such path, because those constructors are external.

## Findings

| source | as written | input that shows it | evidently intended | confidence | as-written member | corrected member |
|---|---|---|---|---|---|---|
| backend/agents/rave_agent.py:50-55 | `Scorecard` declares four plain floats with no validator, so the evaluator records any values | `Scorecard(completeness=1.5, accuracy=0.9, relevance=0.85, clarity=0.75)`, which tests/test_backend/test_rave_agent.py:44-50 expects to raise `ValueError` | every criterion must lie in [0, 1]; the evaluator then reports an out-of-range score as an error before changing anything | not executed | Rave.AsWrittenEvaluatorLeavesRange | Scores.Validate |
