/**
 * The refinement loop of backend/agents/rave_agent.py: the shared state
 * record, the five steps that update it in place, the state check, the
 * stopping rule and a run of the compiled graph.
 *
 * Every call to a language model or to the search tool is an oracle
 * parameter: a function from the inputs the source passes to that call to
 * the reply, or to the message of the exception the call raised.
 */
module Rave {
  import opened Common
  import opened Scores
  import opened Text
  import opened RaveGraph
  import Settings

  // ---------------------------------------------------------------------------
  // State
  // ---------------------------------------------------------------------------

  datatype SearchHistory = SearchHistory(queries: seq<string>, results: seq<string>)

  datatype AttemptHistory = AttemptHistory(responses: seq<string>, scores: seq<Scorecard>, feedback: seq<string>)

  /** The value of the state record at one moment. */
  datatype Snapshot = Snapshot(
    query: string,
    scorecard: Option<Scorecard>,
    searchHistory: SearchHistory,
    attemptHistory: AttemptHistory,
    currentGaps: seq<string>,
    currentAttempt: Option<string>,
    newQueries: seq<string>,
    searchResults: seq<string>)

  /** What a step hands back: the state, or a dictionary holding only `"error"`. */
  datatype Outcome = Ok | Error(message: string)

  const INVALID_STATE: string := "Invalid state"
  const INITIAL_FEEDBACK: string := "Initial attempt"
  /** `str(KeyError('score'))`: the evaluator reply lacks a usable `"score"` object. */
  const MISSING_SCORE: string := "'score'"
  /** `str(KeyError('feedback'))`: the evaluator reply lacks `"feedback"`. */
  const MISSING_FEEDBACK: string := "'feedback'"
  /**
   * The rejection of a criterion outside [0, 1] by the validated scorecard,
   * the `ValueError` tests/test_backend/test_rave_agent.py:44-50 expects;
   * the scorecard as written raises none.
   */
  const SCORE_OUT_OF_RANGE: string := "Scorecard values must lie in [0, 1]"

  /** `validate_state`: there is a non-empty current attempt and a non-empty query. */
  predicate ValidateState(s: Snapshot) {
    s.currentAttempt.Some? && s.currentAttempt.value != [] && s.query != []
  }

  /** The feedback the gap analyzer passes on: the latest recorded one, if any. */
  function LatestFeedback(feedback: seq<string>): string {
    if feedback != [] then feedback[|feedback| - 1] else INITIAL_FEEDBACK
  }

  /** The queries the search step runs: the new queries, or the gaps when there are none. */
  function SearchInputs(s: Snapshot): seq<string> {
    if s.newQueries != [] then s.newQueries else s.currentGaps
  }

  /** The items the response generator passes on: the search results, or the gaps when there are none. */
  function ResponseInputs(s: Snapshot): seq<string> {
    if s.searchResults != [] then s.searchResults else s.currentGaps
  }

  /** Every history of `b` starts with the corresponding history of `a`. */
  predicate Extends(a: Snapshot, b: Snapshot) {
    && a.searchHistory.queries <= b.searchHistory.queries
    && a.searchHistory.results <= b.searchHistory.results
    && a.attemptHistory.responses <= b.attemptHistory.responses
    && a.attemptHistory.scores <= b.attemptHistory.scores
    && a.attemptHistory.feedback <= b.attemptHistory.feedback
  }

  /** The recorded scores and the current scorecard all lie in [0, 1]. */
  predicate ScoresInRange(s: Snapshot) {
    && (forall i :: 0 <= i < |s.attemptHistory.scores| ==> InRange(s.attemptHistory.scores[i]))
    && (s.scorecard.Some? ==> InRange(s.scorecard.value))
  }

  /** One response recorded per score. */
  predicate Aligned(s: Snapshot) {
    |s.attemptHistory.responses| == |s.attemptHistory.scores|
  }

  /** Responses, scores and feedback recorded in lockstep. */
  predicate Lockstep(s: Snapshot) {
    Aligned(s) && |s.attemptHistory.scores| == |s.attemptHistory.feedback|
  }

  /**
   * What every step keeps from `a` to `b`: the histories only grow, the
   * score range (when scorecards are `checked` on construction), the
   * response/score alignment, and (when the step succeeded, `ok`) the
   * lockstep of the three attempt histories hold on, and the query is
   * untouched.
   */
  predicate Keeps(a: Snapshot, b: Snapshot, ok: bool, checked: bool) {
    && Extends(a, b)
    && (checked && ScoresInRange(a) ==> ScoresInRange(b))
    && (Aligned(a) ==> Aligned(b))
    && (ok && Lockstep(a) ==> Lockstep(b))
    && b.query == a.query
  }

  /** Successful steps followed by one more step keep what the last step keeps. */
  lemma KeepsTransitive(a: Snapshot, b: Snapshot, c: Snapshot, ok: bool, checked: bool)
    requires Keeps(a, b, true, checked) && Keeps(b, c, ok, checked)
    ensures Keeps(a, c, ok, checked)
  {
  }

  /**
   * A step that leaves the attempt history, the scorecard and the query
   * alone and only extends the search history keeps what `Keeps` asks for,
   * whatever its outcome.
   */
  lemma KeepsOutsideAttempts(a: Snapshot, b: Snapshot, ok: bool, checked: bool)
    requires b.attemptHistory == a.attemptHistory && b.scorecard == a.scorecard && b.query == a.query
    requires a.searchHistory.queries <= b.searchHistory.queries && a.searchHistory.results <= b.searchHistory.results
    ensures Keeps(a, b, ok, checked)
  {
  }

  // ---------------------------------------------------------------------------
  // Stopping rule
  // ---------------------------------------------------------------------------

  /**
   * `should_continue`: stop on an invalid state or once the budget of
   * scores is used up; with two or more scores, stop when every criterion
   * of the latest one reaches the threshold or when no criterion moved by
   * the improvement threshold since the one before; otherwise go on.
   */
  function ShouldContinue(s: Snapshot): (r: bool)
    ensures r ==> ValidateState(s) && |s.attemptHistory.scores| < Settings.MAX_ITERATIONS
  {
    var sc := s.attemptHistory.scores;
    if !ValidateState(s) then false
    else if |sc| >= Settings.MAX_ITERATIONS then false
    else if |sc| > 1 then
      var last := sc[|sc| - 1];
      var prev := sc[|sc| - 2];
      if AllAtLeast(last, Settings.SCORE_THRESHOLD) then false
      else if Stagnant(last, prev, Settings.IMPROVEMENT_THRESHOLD) then false
      else true
    else true
  }

  /**
   * The three rules of the stopping rule: with two or more scores, a latest
   * score reaching the threshold on every criterion stops, and so does one
   * that moved by less than the improvement threshold on every criterion;
   * a valid state with fewer than two scores, or within the budget with
   * neither rule firing, goes on.
   */
  lemma ShouldContinueRules(s: Snapshot)
    ensures var sc := s.attemptHistory.scores;
            |sc| >= 2 && AllAtLeast(sc[|sc| - 1], Settings.SCORE_THRESHOLD) ==> !ShouldContinue(s)
    ensures var sc := s.attemptHistory.scores;
            |sc| >= 2 && Stagnant(sc[|sc| - 1], sc[|sc| - 2], Settings.IMPROVEMENT_THRESHOLD) ==> !ShouldContinue(s)
    ensures ValidateState(s) && |s.attemptHistory.scores| < 2 ==> ShouldContinue(s)
    ensures var sc := s.attemptHistory.scores;
            && ValidateState(s) && 2 <= |sc| < Settings.MAX_ITERATIONS
            && !AllAtLeast(sc[|sc| - 1], Settings.SCORE_THRESHOLD)
            && !Stagnant(sc[|sc| - 1], sc[|sc| - 2], Settings.IMPROVEMENT_THRESHOLD)
            ==> ShouldContinue(s)
  {
  }

  /** A single score never stops the loop, not even a perfect one: the threshold needs two scores. */
  lemma PerfectFirstScoreContinues(s: Snapshot)
    requires ValidateState(s)
    requires s.attemptHistory.scores == [Scorecard(1.0, 1.0, 1.0, 1.0)]
    ensures ShouldContinue(s)
  {
  }

  // ---------------------------------------------------------------------------
  // Search results
  // ---------------------------------------------------------------------------

  /** What one search call returns: a list of results, or a single non-list value. */
  datatype SearchReply = Many(items: seq<string>) | One(item: string)

  /** A list reply is extended into the results, any other reply appended as one element. */
  function Items(reply: SearchReply): seq<string> {
    match reply
    case Many(items) => items
    case One(item) => [item]
  }

  /**
   * The results of running `tool` on every query in order, concatenated;
   * the first call that raises ends the search with its message.
   */
  function Collect(tool: string -> Result<SearchReply>, queries: seq<string>): Result<seq<string>>
    decreases |queries|
  {
    if queries == [] then Success([])
    else
      match Collect(tool, queries[..|queries| - 1])
      case Failure(m) => Failure(m)
      case Success(found) =>
        match tool(queries[|queries| - 1])
        case Failure(m) => Failure(m)
        case Success(reply) => Success(found + Items(reply))
  }

  /**
   * The search fails exactly when some query's call raises, and then with
   * the message of the first such call.
   */
  lemma {:induction false} CollectFailure(tool: string -> Result<SearchReply>, queries: seq<string>)
    ensures Collect(tool, queries).Failure? <==> exists i :: 0 <= i < |queries| && tool(queries[i]).Failure?
    ensures Collect(tool, queries).Failure? ==>
              exists i :: && 0 <= i < |queries| && tool(queries[i]) == Failure(Collect(tool, queries).message)
                          && forall j :: 0 <= j < i ==> tool(queries[j]).Success?
    decreases |queries|
  {
    if queries != [] {
      var init := queries[..|queries| - 1];
      CollectFailure(tool, init);
      assert forall i :: 0 <= i < |init| ==> init[i] == queries[i];
    }
  }

  /**
   * The loop of `search`: run the tool on each query in turn, concatenating
   * the results, and stop at the first call that raises.
   */
  method RunQueries(tool: string -> Result<SearchReply>, queries: seq<string>) returns (r: Result<seq<string>>)
    ensures r == Collect(tool, queries)
  {
    var found: seq<string> := [];
    var i := 0;
    while i < |queries|
      invariant 0 <= i <= |queries|
      invariant Collect(tool, queries[..i]) == Success(found)
    {
      assert queries[..i + 1][..i] == queries[..i];
      var reply := tool(queries[i]);
      match reply
      case Failure(m) =>
        CollectPrefixFailure(tool, queries, i + 1);
        return Failure(m);
      case Success(items) =>
        found := found + Items(items);
      i := i + 1;
    }
    assert queries[..i] == queries;
    return Success(found);
  }

  /** Once a prefix of the queries has failed, the whole search fails with the same message. */
  lemma {:induction false} CollectPrefixFailure(tool: string -> Result<SearchReply>, queries: seq<string>, n: nat)
    requires n <= |queries|
    requires Collect(tool, queries[..n]).Failure?
    ensures Collect(tool, queries) == Collect(tool, queries[..n])
    decreases |queries| - n
  {
    if n < |queries| {
      assert queries[..n + 1][..n] == queries[..n];
      CollectPrefixFailure(tool, queries, n + 1);
    } else {
      assert queries[..n] == queries;
    }
  }

  /** Searching a concatenation of query lists concatenates their results, in query order. */
  lemma {:induction false} CollectConcat(tool: string -> Result<SearchReply>, a: seq<string>, b: seq<string>)
    requires Collect(tool, a).Success? && Collect(tool, b).Success?
    ensures Collect(tool, a + b) == Success(Collect(tool, a).value + Collect(tool, b).value)
    decreases |b|
  {
    if b == [] {
      assert a + b == a;
      assert Collect(tool, a).value + [] == Collect(tool, a).value;
    } else {
      var b', last := b[..|b| - 1], b[|b| - 1];
      assert b == b' + [last];
      CollectSnoc(tool, b', last);
      CollectConcat(tool, a, b');
      AppendAssoc(a, b', [last]);
      CollectSnoc(tool, a + b', last);
      AppendAssoc(Collect(tool, a).value, Collect(tool, b').value, Items(tool(last).value));
    }
  }

  /** Concatenation is associative (kept apart so that the search proofs need not rediscover it). */
  lemma AppendAssoc<T>(a: seq<T>, b: seq<T>, c: seq<T>)
    ensures a + (b + c) == (a + b) + c
  {
  }

  /** Searching one more query appends that query's items. */
  lemma CollectSnoc(tool: string -> Result<SearchReply>, queries: seq<string>, q: string)
    ensures Collect(tool, queries + [q]) ==
      match Collect(tool, queries)
      case Failure(m) => Failure(m)
      case Success(found) =>
        match tool(q)
        case Failure(m) => Failure(m)
        case Success(reply) => Success(found + Items(reply))
  {
    assert (queries + [q])[..|queries|] == queries;
  }

  /** Searching one query yields that query's items. */
  lemma CollectOne(tool: string -> Result<SearchReply>, q: string)
    requires tool(q).Success?
    ensures Collect(tool, [q]) == Success(Items(tool(q).value))
  {
    assert [q][..0] == [];
    assert Collect(tool, []) == Success([]);
    assert [] + Items(tool(q).value) == Items(tool(q).value);
  }

  // ---------------------------------------------------------------------------
  // Oracles
  // ---------------------------------------------------------------------------

  /** The evaluator's reply after `json.loads`: unusable, or a score object and a feedback entry, each possibly missing. */
  datatype EvalReply = Unusable(reason: string) | Parsed(score: Option<Scorecard>, feedback: Option<string>)

  /** The external calls of a whole run; the first argument numbers the round (evaluations before the call). */
  datatype Oracles = Oracles(
    evaluate: (nat, string) -> EvalReply,
    analyze: (nat, string, string) -> Result<string>,
    generate: (nat, seq<string>, string, seq<string>) -> Result<string>,
    search: (nat, string) -> Result<SearchReply>,
    respond: (nat, string, string, string) -> Result<string>)

  /** The search tool as the search step of round `round` calls it. */
  function SearchTool(o: Oracles, round: nat): string -> Result<SearchReply> {
    q => o.search(round, q)
  }

  /**
   * Whether the evaluator's reply makes it return an error: the reply is not
   * usable JSON, lacks the score or the feedback, or (when scorecards are
   * `checked`) holds a score outside [0, 1].
   */
  predicate EvaluationFails(reply: EvalReply, checked: bool) {
    match reply
    case Unusable(_) => true
    case Parsed(score, fb) => score.None? || (checked && !InRange(score.value)) || fb.None?
  }

  /**
   * Whether step `step`, run in round `round` on state `s`, returns
   * `{"error": ...}`: the state is invalid, or the step's external call
   * raises, or (for the evaluator) its reply is unusable.
   */
  predicate StepFails(step: Node, o: Oracles, round: nat, checked: bool, s: Snapshot)
    requires IsStep(step)
  {
    || !ValidateState(s)
    || match step
       case Evaluator => EvaluationFails(o.evaluate(round, s.currentAttempt.value), checked)
       case GapAnalyzer => o.analyze(round, s.currentAttempt.value, LatestFeedback(s.attemptHistory.feedback)).Failure?
       case QueryGenerator => o.generate(round, s.currentGaps, s.query, s.searchHistory.queries).Failure?
       case Search => Collect(SearchTool(o, round), SearchInputs(s)).Failure?
       case ResponseGenerator => o.respond(round, s.query, Join(ResponseInputs(s), NEWLINE), s.currentAttempt.value).Failure?
  }

  /**
   * What step `step`, run in round `round` on state `s`, hands back and the
   * state it leaves: the post-state its step method states, with the step's
   * external call answered by the oracles. It is an error exactly when the
   * step fails.
   */
  function StepResult(step: Node, o: Oracles, round: nat, checked: bool, s: Snapshot): (r: (Outcome, Snapshot))
    requires IsStep(step)
    ensures r.0.Error? <==> StepFails(step, o, round, checked, s)
  {
    if !ValidateState(s) then (Error(INVALID_STATE), s)
    else
      var a := s.currentAttempt.value;
      var h := s.attemptHistory;
      match step
      case Evaluator =>
        (match o.evaluate(round, a)
         case Unusable(reason) => (Error(reason), s)
         case Parsed(score, fb) =>
           if score.None? then (Error(MISSING_SCORE), s)
           else if checked && !InRange(score.value) then (Error(SCORE_OUT_OF_RANGE), s)
           else if fb.None? then
             (Error(MISSING_FEEDBACK),
              s.(scorecard := score, attemptHistory := h.(responses := h.responses + [a], scores := h.scores + [score.value])))
           else
             (Ok, s.(scorecard := score,
                     attemptHistory := AttemptHistory(h.responses + [a], h.scores + [score.value], h.feedback + [fb.value]))))
      case GapAnalyzer =>
        (match o.analyze(round, a, LatestFeedback(h.feedback))
         case Failure(m) => (Error(m), s)
         case Success(reply) => (Ok, s.(currentGaps := ReplyLines(reply))))
      case QueryGenerator =>
        (match o.generate(round, s.currentGaps, s.query, s.searchHistory.queries)
         case Failure(m) => (Error(m), s)
         case Success(reply) =>
           var q := ReplyQueries(reply);
           (Ok, s.(newQueries := q, searchHistory := s.searchHistory.(queries := s.searchHistory.queries + q))))
      case Search =>
        (match Collect(SearchTool(o, round), SearchInputs(s))
         case Failure(m) => (Error(m), s)
         case Success(found) =>
           (Ok, s.(searchResults := found, searchHistory := s.searchHistory.(results := s.searchHistory.results + found))))
      case ResponseGenerator =>
        (match o.respond(round, s.query, Join(ResponseInputs(s), NEWLINE), a)
         case Failure(m) => (Error(m), s)
         case Success(reply) => (Ok, s.(currentAttempt := Some(reply))))
  }

  /**
   * With the constructor as written, the evaluator records an out-of-range
   * score: when the reply scores completeness 1.5, with feedback, the
   * unchecked evaluator step succeeds and the state it leaves no longer has
   * its scores in range, however in range they were before; the checked
   * step rejects that reply and changes nothing.
   */
  lemma AsWrittenEvaluatorLeavesRange(s: Snapshot, o: Oracles, round: nat, fb: string)
    requires ValidateState(s) && ScoresInRange(s)
    requires o.evaluate(round, s.currentAttempt.value) == Parsed(Some(Scorecard(1.5, 0.9, 0.85, 0.75)), Some(fb))
    ensures StepResult(Evaluator, o, round, false, s).0 == Ok
    ensures !ScoresInRange(StepResult(Evaluator, o, round, false, s).1)
    ensures StepResult(Evaluator, o, round, true, s) == (Error(SCORE_OUT_OF_RANGE), s)
  {
  }

  /** Evaluations a run may make when it starts with `k` recorded scores. */
  function EvaluationBudget(k: nat): (b: nat)
    ensures b >= 1
    ensures k == 0 ==> b == Settings.MAX_ITERATIONS
  {
    if k < Settings.MAX_ITERATIONS then Settings.MAX_ITERATIONS - k else 1
  }

  /** The progress order of the run loop: the evaluator counts down the budget, the other steps this rank. */
  function Rank(n: Node): nat {
    match n
    case GapAnalyzer => 5
    case QueryGenerator => 4
    case Search => 3
    case ResponseGenerator => 2
    case Evaluator => 1
    case _ => 0
  }

  /**
   * What holds at every transition of a run that started from `start` and
   * is now at `node` in state `s`: the node is the next step of the cycle
   * (or END), one evaluation per visit of the evaluator, each successful
   * evaluation one more score, the budget not exceeded, an error ends the
   * run, and a run that ends without one ends after the response generator
   * with the stopping rule saying stop.
   */
  ghost predicate RunSoFar(start: Snapshot, s: Snapshot, node: Node, status: Outcome, steps: nat, evaluations: nat) {
    var k := |start.attemptHistory.scores|;
    && (node == End || node == CycleAt(steps))
    && evaluations == Visits(steps)
    && (node != End ==> status.Ok?)
    && (node == End ==> steps >= 1)
    && (status.Ok? ==> |s.attemptHistory.scores| == k + evaluations)
    && (status.Error? ==> k + evaluations - 1 <= |s.attemptHistory.scores| <= k + evaluations)
    && (node == Evaluator ==> evaluations < EvaluationBudget(k))
    && evaluations <= EvaluationBudget(k)
    && (node == End && status.Ok? ==> CycleAt(steps - 1) == ResponseGenerator && !ShouldContinue(s))
  }

  /**
   * One step of a run, on snapshots: step `node` took the run from `before`
   * to `after` with `status`, changing the count of scores as the step
   * methods promise; then `RunSoFar` holds at `next`, the node its
   * conditional edge leads to, one step later, and the run either made an
   * evaluation or moved to a step of lower rank.
   */
  lemma StepKeepsRun(start: Snapshot, before: Snapshot, after: Snapshot,
                     node: Node, status: Outcome, steps: nat, evaluations: nat,
                     next: Node, steps': nat, evaluations': nat)
    requires node != End && RunSoFar(start, before, node, Ok, steps, evaluations)
    requires next == Route(node, status.Ok?, ShouldContinue(after))
    requires steps' == steps + 1 && evaluations' == if node == Evaluator then evaluations + 1 else evaluations
    requires node != Evaluator ==> after.attemptHistory == before.attemptHistory
    requires node == Evaluator && status.Ok? ==> |after.attemptHistory.scores| == |before.attemptHistory.scores| + 1
    requires node == Evaluator && status.Error? ==>
               |before.attemptHistory.scores| <= |after.attemptHistory.scores| <= |before.attemptHistory.scores| + 1
    ensures RunSoFar(start, after, next, status, steps', evaluations')
    ensures evaluations' > evaluations || (evaluations' == evaluations && Rank(next) < Rank(node))
  {
    SuccessorOfCycle(steps);
    VisitsStep(steps);
  }

  /**
   * The step a run takes at position `i` of its trace: the i-th step of the
   * cycle, with the oracles told the evaluations made before it.
   */
  function Stepper(o: Oracles, checked: bool): (nat, Snapshot) -> (Outcome, Snapshot) {
    (i: nat, s: Snapshot) => StepResult(CycleAt(i), o, Visits(i), checked, s)
  }

  /**
   * `trace` lists the states of a run of the graph, the first being the state
   * it started from: each state is what `step` at that position left of the
   * one before; every step but the last went on through its conditional
   * edge; and the last step handed back `status`, its edge leading to `node`.
   */
  ghost predicate Traced(step: (nat, Snapshot) -> (Outcome, Snapshot), trace: seq<Snapshot>, status: Outcome, node: Node) {
    && |trace| >= 1
    && (forall i: nat {:trigger step(i, trace[i])} :: i < |trace| - 1 ==> trace[i + 1] == step(i, trace[i]).1)
    && (forall i: nat {:trigger step(i, trace[i])} :: i < |trace| - 2 ==>
          Route(CycleAt(i), step(i, trace[i]).0.Ok?, ShouldContinue(trace[i + 1])) != End)
    && (|trace| >= 2 ==>
          var n := |trace| - 2;
          && status == step(n, trace[n]).0
          && node == Route(CycleAt(n), status.Ok?, ShouldContinue(trace[n + 1])))
  }

  /** A run that has not reached END takes its next step and follows that step's edge. */
  lemma TracedStep(step: (nat, Snapshot) -> (Outcome, Snapshot), trace: seq<Snapshot>, status: Outcome, node: Node,
                   status': Outcome, after: Snapshot, next: Node)
    requires Traced(step, trace, status, node) && node != End
    requires node == CycleAt(|trace| - 1)
    requires (status', after) == step(|trace| - 1, trace[|trace| - 1])
    requires next == Route(node, status'.Ok?, ShouldContinue(after))
    ensures Traced(step, trace + [after], status', next)
  {
    var t := trace + [after];
    var n := |trace| - 1;
    forall i: nat | i < n
      ensures t[i + 1] == step(i, t[i]).1
    {
      assert t[i] == trace[i] && t[i + 1] == trace[i + 1];
    }
    forall i: nat | i < n
      ensures Route(CycleAt(i), step(i, t[i]).0.Ok?, ShouldContinue(t[i + 1])) != End
    {
      assert t[i] == trace[i] && t[i + 1] == trace[i + 1];
    }
    assert t[n] == trace[n] && t[n + 1] == after;
  }

  /**
   * What holds before every transition of a run from `start` that has
   * passed through the states `trace`, is now in state `s` at `node`, and
   * whose last step ran on `last`: the facts of `RunSoFar`, what `Keeps`
   * asks of the run so far, and `trace` is the run's own trace, from
   * `start` to `s`.
   */
  ghost predicate Running(o: Oracles, checked: bool, start: Snapshot, trace: seq<Snapshot>, last: Snapshot, s: Snapshot,
                          node: Node, status: Outcome, steps: nat, evaluations: nat) {
    && RunSoFar(start, s, node, status, steps, evaluations)
    && Keeps(start, s, status.Ok?, checked)
    && |trace| == steps + 1 && trace[0] == start && trace[steps] == s
    && (steps >= 1 ==> last == trace[steps - 1])
    && Traced(Stepper(o, checked), trace, status, node)
  }

  /** A transition, as `Transition` states it, extends the run by one state. */
  lemma RunningStep(o: Oracles, checked: bool, start: Snapshot, trace: seq<Snapshot>, last: Snapshot,
                    before: Snapshot, node: Node, status: Outcome, steps: nat, evaluations: nat,
                    after: Snapshot, next: Node, status': Outcome, steps': nat, evaluations': nat)
    requires Running(o, checked, start, trace, last, before, node, status, steps, evaluations) && node != End
    requires (status', after) == StepResult(node, o, evaluations, checked, before)
    requires next == Route(node, status'.Ok?, ShouldContinue(after))
    requires steps' == steps + 1
    requires RunSoFar(start, after, next, status', steps', evaluations')
    requires Keeps(before, after, status'.Ok?, checked)
    ensures Running(o, checked, start, trace + [after], before, after, next, status', steps', evaluations')
  {
    KeepsTransitive(start, before, after, status'.Ok?, checked);
    assert Stepper(o, checked)(steps, trace[steps]) == StepResult(node, o, evaluations, checked, before);
    TracedStep(Stepper(o, checked), trace, status, node, status', after, next);
  }

  /** A run starts at the evaluator, in its initial state, with no step taken. */
  lemma RunningStarts(o: Oracles, checked: bool, start: Snapshot)
    ensures Running(o, checked, start, [start], start, start, Evaluator, Ok, 0, 0)
  {
  }

  /** What a run that has reached END has done, read off the facts kept along the way. */
  lemma RunEnds(o: Oracles, checked: bool, start: Snapshot, trace: seq<Snapshot>, last: Snapshot, s: Snapshot,
                status: Outcome, steps: nat, evaluations: nat)
    requires Running(o, checked, start, trace, last, s, End, status, steps, evaluations)
    ensures 1 <= evaluations <= EvaluationBudget(|start.attemptHistory.scores|)
    ensures start.attemptHistory.scores == [] ==> evaluations <= Settings.MAX_ITERATIONS
    ensures steps >= 1 && evaluations == Visits(steps)
    ensures |trace| == steps + 1 && trace[0] == start && trace[steps] == s && last == trace[steps - 1]
    ensures Traced(Stepper(o, checked), trace, status, End)
    ensures status.Error? <==> StepFails(CycleAt(steps - 1), o, Visits(steps - 1), checked, last)
    ensures status.Ok? ==> CycleAt(steps - 1) == ResponseGenerator && !ShouldContinue(s)
    ensures status.Ok? ==> |s.attemptHistory.scores| == |start.attemptHistory.scores| + evaluations
    ensures status.Error? ==>
              |start.attemptHistory.scores| + evaluations - 1 <= |s.attemptHistory.scores| <= |start.attemptHistory.scores| + evaluations
    ensures Keeps(start, s, status.Ok?, checked)
  {
  }

  /** No step clears the current attempt: each leaves it as it was or replaces it with a reply. */
  lemma StepKeepsAttempt(step: Node, o: Oracles, round: nat, checked: bool, s: Snapshot)
    requires IsStep(step) && s.currentAttempt.Some?
    ensures var r := StepResult(step, o, round, checked, s);
            || r.1.currentAttempt == s.currentAttempt
            || (&& step == ResponseGenerator && r.0.Ok?
                && r.1.currentAttempt == Some(o.respond(round, s.query, Join(ResponseInputs(s), NEWLINE), s.currentAttempt.value).value))
    ensures StepResult(step, o, round, checked, s).1.currentAttempt.Some?
  {
  }

  /**
   * Every state a run passes through, and so every state its conditional
   * edges are given, holds a current attempt, provided the run started with
   * one.
   */
  lemma {:induction false} TraceKeepsAttempt(o: Oracles, checked: bool, trace: seq<Snapshot>, status: Outcome,
                                              node: Node, i: nat)
    requires Traced(Stepper(o, checked), trace, status, node) && trace[0].currentAttempt.Some?
    requires i < |trace|
    ensures trace[i].currentAttempt.Some?
  {
    if i > 0 {
      TraceKeepsAttempt(o, checked, trace, status, node, i - 1);
      StepKeepsAttempt(CycleAt(i - 1), o, Visits(i - 1), checked, trace[i - 1]);
      assert trace[i] == Stepper(o, checked)(i - 1, trace[i - 1]).1;
    }
  }

  /**
   * A run started without a current attempt stops after its first step: the
   * evaluator rejects the state as invalid, leaving it unchanged, and its
   * edge leads to END.
   */
  lemma NoAttemptStopsAtOnce(o: Oracles, checked: bool, trace: seq<Snapshot>, status: Outcome)
    requires Traced(Stepper(o, checked), trace, status, End) && |trace| >= 2
    requires trace[0].currentAttempt.None?
    ensures |trace| == 2 && status == Error(INVALID_STATE) && trace[1] == trace[0]
  {
    var r := Stepper(o, checked)(0, trace[0]);
    assert r == (Error(INVALID_STATE), trace[0]);
    assert Route(CycleAt(0), r.0.Ok?, ShouldContinue(trace[1])) == End;
  }

  // ---------------------------------------------------------------------------
  // The state record and its steps
  // ---------------------------------------------------------------------------

  class State {
    var query: string
    var scorecard: Option<Scorecard>
    var searchHistory: SearchHistory
    var attemptHistory: AttemptHistory
    var currentGaps: seq<string>
    var currentAttempt: Option<string>
    var newQueries: seq<string>
    var searchResults: seq<string>

    function View(): Snapshot
      reads this
    {
      Snapshot(query, scorecard, searchHistory, attemptHistory, currentGaps, currentAttempt, newQueries, searchResults)
    }

    /** The initial state of a run: empty histories, no scorecard, no gaps, queries or results. */
    constructor (query: string, currentAttempt: Option<string>)
      ensures View() == Snapshot(query, None, SearchHistory([], []), AttemptHistory([], [], []), [], currentAttempt, [], [])
    {
      this.query := query;
      this.scorecard := None;
      this.searchHistory := SearchHistory([], []);
      this.attemptHistory := AttemptHistory([], [], []);
      this.currentGaps := [];
      this.currentAttempt := currentAttempt;
      this.newQueries := [];
      this.searchResults := [];
    }

    /**
     * `evaluator`: score the current attempt. The scorecard is constructed
     * before anything changes (when `checked`, an out-of-range score is
     * rejected there; as written, none is); then the scorecard is set and the
     * attempt and score recorded; a missing feedback entry raises only after
     * that, so the histories leave lockstep exactly on that path.
     */
    method Evaluator(llm: string -> EvalReply, checked: bool) returns (outcome: Outcome)
      modifies this
      ensures !ValidateState(old(View())) ==> outcome == Error(INVALID_STATE) && View() == old(View())
      ensures ValidateState(old(View())) ==>
        var s := old(View());
        var a := s.currentAttempt.value;
        var h := s.attemptHistory;
        match llm(a)
        case Unusable(reason) => outcome == Error(reason) && View() == s
        case Parsed(score, fb) =>
          if score.None? then outcome == Error(MISSING_SCORE) && View() == s
          else if checked && !InRange(score.value) then outcome == Error(SCORE_OUT_OF_RANGE) && View() == s
          else if fb.None? then
            && outcome == Error(MISSING_FEEDBACK)
            && View() == s.(scorecard := score,
                            attemptHistory := h.(responses := h.responses + [a], scores := h.scores + [score.value]))
          else
            && outcome == Ok
            && View() == s.(scorecard := score,
                            attemptHistory := AttemptHistory(h.responses + [a], h.scores + [score.value], h.feedback + [fb.value]))
      ensures Keeps(old(View()), View(), outcome.Ok?, checked)
      ensures outcome.Ok? ==> |attemptHistory.scores| == |old(attemptHistory.scores)| + 1
      ensures outcome.Error? ==> |old(attemptHistory.scores)| <= |attemptHistory.scores| <= |old(attemptHistory.scores)| + 1
    {
      if !ValidateState(View()) {
        return Error(INVALID_STATE);
      }
      var a := currentAttempt.value;
      var reply := llm(a);
      match reply
      case Unusable(reason) =>
        outcome := Error(reason);
      case Parsed(score, fb) =>
        if score.None? {
          return Error(MISSING_SCORE);
        }
        var card := Construct(checked, score.value);
        if card.None? {
          return Error(SCORE_OUT_OF_RANGE);
        }
        scorecard := card;
        attemptHistory := attemptHistory.(responses := attemptHistory.responses + [a],
                                          scores := attemptHistory.scores + [card.value]);
        if fb.None? {
          return Error(MISSING_FEEDBACK);
        }
        attemptHistory := attemptHistory.(feedback := attemptHistory.feedback + [fb.value]);
        outcome := Ok;
    }

    /**
     * `gap_analyzer`: ask for the gaps of the current attempt given the
     * latest feedback, and replace the current gaps with the reply's lines.
     */
    method GapAnalyzer(llm: (string, string) -> Result<string>) returns (outcome: Outcome)
      modifies this
      ensures !ValidateState(old(View())) ==> outcome == Error(INVALID_STATE) && View() == old(View())
      ensures ValidateState(old(View())) ==>
        var s := old(View());
        match llm(s.currentAttempt.value, LatestFeedback(s.attemptHistory.feedback))
        case Failure(m) => outcome == Error(m) && View() == s
        case Success(reply) => outcome == Ok && View() == s.(currentGaps := ReplyLines(reply))
      ensures attemptHistory == old(attemptHistory) && scorecard == old(scorecard)
      ensures Keeps(old(View()), View(), outcome.Ok?, true)
    {
      if !ValidateState(View()) {
        KeepsOutsideAttempts(old(View()), View(), false, true);
        return Error(INVALID_STATE);
      }
      var feedback := LatestFeedback(attemptHistory.feedback);
      var reply := llm(currentAttempt.value, feedback);
      match reply
      case Failure(m) =>
        outcome := Error(m);
        KeepsOutsideAttempts(old(View()), View(), false, true);
      case Success(text) =>
        currentGaps := ReplyLines(text);
        outcome := Ok;
        KeepsOutsideAttempts(old(View()), View(), true, true);
    }

    /**
     * `query_generator`: ask for search queries given the gaps, the question
     * and the queries run so far; the cleaned list becomes the new queries
     * and is appended to the query history.
     */
    method QueryGenerator(llm: (seq<string>, string, seq<string>) -> Result<string>) returns (outcome: Outcome)
      modifies this
      ensures !ValidateState(old(View())) ==> outcome == Error(INVALID_STATE) && View() == old(View())
      ensures ValidateState(old(View())) ==>
        var s := old(View());
        match llm(s.currentGaps, s.query, s.searchHistory.queries)
        case Failure(m) => outcome == Error(m) && View() == s
        case Success(reply) =>
          var q := ReplyQueries(reply);
          && outcome == Ok
          && View() == s.(newQueries := q, searchHistory := s.searchHistory.(queries := s.searchHistory.queries + q))
      ensures attemptHistory == old(attemptHistory) && scorecard == old(scorecard)
      ensures Keeps(old(View()), View(), outcome.Ok?, true)
    {
      if !ValidateState(View()) {
        KeepsOutsideAttempts(old(View()), View(), false, true);
        return Error(INVALID_STATE);
      }
      var reply := llm(currentGaps, query, searchHistory.queries);
      match reply
      case Failure(m) =>
        outcome := Error(m);
        KeepsOutsideAttempts(old(View()), View(), false, true);
      case Success(text) =>
        var queryList := ReplyQueries(text);
        newQueries := queryList;
        searchHistory := searchHistory.(queries := searchHistory.queries + queryList);
        outcome := Ok;
        KeepsOutsideAttempts(old(View()), View(), true, true);
    }

    /**
     * `search`: run the tool on every query (the new queries, or the gaps
     * when there are none), collecting the results; they are stored and
     * appended to the result history only once every call has succeeded.
     */
    method Search(tool: string -> Result<SearchReply>) returns (outcome: Outcome)
      modifies this
      ensures !ValidateState(old(View())) ==> outcome == Error(INVALID_STATE) && View() == old(View())
      ensures ValidateState(old(View())) ==>
        var s := old(View());
        match Collect(tool, SearchInputs(s))
        case Failure(m) => outcome == Error(m) && View() == s
        case Success(found) =>
          && outcome == Ok
          && View() == s.(searchResults := found, searchHistory := s.searchHistory.(results := s.searchHistory.results + found))
      ensures attemptHistory == old(attemptHistory) && scorecard == old(scorecard)
      ensures Keeps(old(View()), View(), outcome.Ok?, true)
    {
      if !ValidateState(View()) {
        KeepsOutsideAttempts(old(View()), View(), false, true);
        return Error(INVALID_STATE);
      }
      var queries := newQueries;
      if queries == [] {
        queries := currentGaps;
      }
      var collected := RunQueries(tool, queries);
      match collected
      case Failure(m) =>
        outcome := Error(m);
        KeepsOutsideAttempts(old(View()), View(), false, true);
      case Success(found) =>
        searchResults := found;
        searchHistory := searchHistory.(results := searchHistory.results + found);
        outcome := Ok;
        KeepsOutsideAttempts(old(View()), View(), true, true);
    }

    /**
     * `response_generator`: ask for an improved answer given the question,
     * the newline-joined search results (or gaps) and the current attempt;
     * the reply replaces the current attempt.
     */
    method ResponseGenerator(llm: (string, string, string) -> Result<string>) returns (outcome: Outcome)
      modifies this
      ensures !ValidateState(old(View())) ==> outcome == Error(INVALID_STATE) && View() == old(View())
      ensures ValidateState(old(View())) ==>
        var s := old(View());
        match llm(s.query, Join(ResponseInputs(s), NEWLINE), s.currentAttempt.value)
        case Failure(m) => outcome == Error(m) && View() == s
        case Success(reply) => outcome == Ok && View() == s.(currentAttempt := Some(reply))
      ensures attemptHistory == old(attemptHistory) && scorecard == old(scorecard)
      ensures Keeps(old(View()), View(), outcome.Ok?, true)
    {
      if !ValidateState(View()) {
        KeepsOutsideAttempts(old(View()), View(), false, true);
        return Error(INVALID_STATE);
      }
      var items := searchResults;
      if items == [] {
        items := currentGaps;
      }
      var formatted := Join(items, NEWLINE);
      var reply := llm(query, formatted, currentAttempt.value);
      match reply
      case Failure(m) =>
        outcome := Error(m);
        KeepsOutsideAttempts(old(View()), View(), false, true);
      case Success(text) =>
        currentAttempt := Some(text);
        outcome := Ok;
        KeepsOutsideAttempts(old(View()), View(), true, true);
    }

    /**
     * Invoke the step function of node `step`, with the oracles told that
     * `round` evaluations were made before the call. The step returns an
     * error exactly when it fails on the state it was given. Only the
     * evaluator touches the scores or the attempt history; every step keeps
     * the histories growing and the query as it was.
     */
    method RunNode(step: Node, o: Oracles, round: nat, checked: bool) returns (outcome: Outcome)
      requires IsStep(step)
      modifies this
      ensures (outcome, View()) == StepResult(step, o, round, checked, old(View()))
      ensures outcome.Error? <==> StepFails(step, o, round, checked, old(View()))
      ensures step != RaveGraph.Evaluator ==> attemptHistory == old(attemptHistory) && scorecard == old(scorecard)
      ensures step == RaveGraph.Evaluator && outcome.Ok? ==> |attemptHistory.scores| == |old(attemptHistory.scores)| + 1
      ensures step == RaveGraph.Evaluator && outcome.Error? ==>
                |old(attemptHistory.scores)| <= |attemptHistory.scores| <= |old(attemptHistory.scores)| + 1
      ensures Keeps(old(View()), View(), outcome.Ok?, checked)
    {
      match step
      case Evaluator =>
        outcome := Evaluator(a => o.evaluate(round, a), checked);
      case GapAnalyzer =>
        outcome := GapAnalyzer((a, f) => o.analyze(round, a, f));
      case QueryGenerator =>
        outcome := QueryGenerator((g, q, h) => o.generate(round, g, q, h));
      case Search =>
        outcome := Search(SearchTool(o, round));
      case ResponseGenerator =>
        outcome := ResponseGenerator((q, r, a) => o.respond(round, q, r, a));
    }

    /**
     * A run of the compiled graph from START: the steps in cycle order, each
     * left through its conditional edge. `steps` counts the steps run (the
     * i-th being `CycleAt(i)`) and `evaluations` the evaluator's runs;
     * `last` is the state the last step ran on (the initial state, when that
     * step was the first). The budget rule bounds the evaluations: at most
     * MAX_ITERATIONS from empty histories, and a single one once the budget
     * is spent. The run ends with an error exactly when
     * its last step failed; a run that ends without one ends after the
     * response generator, with the stopping rule saying stop.
     */
    method Run(o: Oracles, checked: bool)
      returns (status: Outcome, steps: nat, evaluations: nat, ghost last: Snapshot, ghost trace: seq<Snapshot>)
      modifies this
      ensures 1 <= evaluations <= EvaluationBudget(|old(attemptHistory.scores)|)
      ensures old(attemptHistory.scores) == [] ==> evaluations <= Settings.MAX_ITERATIONS
      ensures steps >= 1 && evaluations == Visits(steps)
      ensures |trace| == steps + 1 && trace[0] == old(View()) && trace[steps] == View() && last == trace[steps - 1]
      ensures Traced(Stepper(o, checked), trace, status, End)
      ensures status.Error? <==> StepFails(CycleAt(steps - 1), o, Visits(steps - 1), checked, last)
      ensures status.Ok? ==> CycleAt(steps - 1) == RaveGraph.ResponseGenerator && !ShouldContinue(View())
      ensures status.Ok? ==> |attemptHistory.scores| == |old(attemptHistory.scores)| + evaluations
      ensures status.Error? ==>
                |old(attemptHistory.scores)| + evaluations - 1 <= |attemptHistory.scores| <= |old(attemptHistory.scores)| + evaluations
      ensures Keeps(old(View()), View(), status.Ok?, checked)
    {
      ghost var start := View();
      last := start;
      trace := [start];
      RunningStarts(o, checked, start);
      var node := RaveGraph.Evaluator;
      status := Ok;
      steps := 0;
      evaluations := 0;
      while node != End
        invariant Running(o, checked, start, trace, last, View(), node, status, steps, evaluations)
        decreases EvaluationBudget(|start.attemptHistory.scores|) - evaluations, Rank(node)
      {
        ghost var trace0, last0, status0, node0, steps0, evaluations0 := trace, last, status, node, steps, evaluations;
        status, node, steps, evaluations, last := Transition(o, checked, start, node, steps, evaluations);
        RunningStep(o, checked, start, trace0, last0, last, node0, status0, steps0, evaluations0,
                    View(), node, status, steps, evaluations);
        trace := trace + [View()];
      }
      RunEnds(o, checked, start, trace, last, View(), status, steps, evaluations);
    }

    /**
     * One transition of the graph: run step `node` on state `before`, then
     * follow its conditional edge. The step's outcome is its failure on
     * `before`, the next node is where that edge leads, the facts of
     * `RunSoFar` are kept, the step keeps what `Keeps` asks of it, and
     * either an evaluation is made or the run moves to a step of lower rank.
     */
    method Transition(o: Oracles, checked: bool, ghost start: Snapshot, node: Node, steps: nat, evaluations: nat)
      returns (status: Outcome, next: Node, steps': nat, evaluations': nat, ghost before: Snapshot)
      requires node != End && RunSoFar(start, View(), node, Ok, steps, evaluations)
      modifies this
      ensures before == old(View())
      ensures steps' == steps + 1
      ensures (status, View()) == StepResult(node, o, evaluations, checked, before)
      ensures next == Route(node, status.Ok?, ShouldContinue(View()))
      ensures RunSoFar(start, View(), next, status, steps', evaluations')
      ensures Keeps(before, View(), status.Ok?, checked)
      ensures evaluations' > evaluations || (evaluations' == evaluations && Rank(next) < Rank(node))
    {
      before := View();
      status := RunNode(node, o, evaluations, checked);
      evaluations' := if node == RaveGraph.Evaluator then evaluations + 1 else evaluations;
      steps' := steps + 1;
      next := Route(node, status.Ok?, ShouldContinue(View()));
      StepKeepsRun(start, before, View(), node, status, steps, evaluations, next, steps', evaluations');
    }
  }
}
