/**
 * The four-criterion `Scorecard` of backend/agents/rave_agent.py and the
 * comparisons the stopping rule makes on it. Scores are exact reals.
 */
module Scores {
  import opened Common

  datatype Scorecard = Scorecard(completeness: real, accuracy: real, relevance: real, clarity: real)

  /** Every criterion lies in the closed interval [0, 1]. */
  predicate InRange(s: Scorecard) {
    && 0.0 <= s.completeness <= 1.0
    && 0.0 <= s.accuracy <= 1.0
    && 0.0 <= s.relevance <= 1.0
    && 0.0 <= s.clarity <= 1.0
  }

  /** Every criterion reaches the threshold `t`. */
  predicate AllAtLeast(s: Scorecard, t: real) {
    s.completeness >= t && s.accuracy >= t && s.relevance >= t && s.clarity >= t
  }

  function Abs(x: real): real {
    if x < 0.0 then -x else x
  }

  /** Every criterion of `last` differs from `prev` by less than `delta` (`abs(a - b) < delta`). */
  predicate Stagnant(last: Scorecard, prev: Scorecard, delta: real) {
    && Abs(last.completeness - prev.completeness) < delta
    && Abs(last.accuracy - prev.accuracy) < delta
    && Abs(last.relevance - prev.relevance) < delta
    && Abs(last.clarity - prev.clarity) < delta
  }

  // ---------------------------------------------------------------------------
  // Constructing a Scorecard from the evaluator's reply
  // ---------------------------------------------------------------------------

  /**
   * The constructor as written: the declared fields are plain floats with no
   * validator, so any four numbers are accepted. It differs from the
   * validated constructor exactly on the scorecards outside [0, 1].
   */
  function AsWrittenScorecard(raw: Scorecard): (r: Option<Scorecard>)
    ensures r.Some? && r.value == raw
    ensures r != Validate(raw) <==> !InRange(raw)
  {
    Some(raw)
  }

  /** As written, a completeness of 1.5 is accepted although the tests expect a ValueError. */
  lemma AsWrittenAcceptsOutOfRange()
    ensures var raw := Scorecard(1.5, 0.9, 0.85, 0.75);
            AsWrittenScorecard(raw) == Some(raw) && !InRange(raw)
  {
  }

  /**
   * The constructor the tests expect: a value outside [0, 1] is rejected
   * (the ValueError of the test), anything else is kept unchanged.
   */
  function Validate(raw: Scorecard): (r: Option<Scorecard>)
    ensures r.Some? <==> InRange(raw)
    ensures r.Some? ==> r.value == raw && InRange(r.value)
  {
    if InRange(raw) then Some(raw) else None
  }

  /**
   * The constructor the evaluator applies to the reply's score object: the
   * validated one when `checked`, the one as written otherwise. Only a
   * checked construction rejects, and only an out-of-range scorecard.
   */
  function Construct(checked: bool, raw: Scorecard): (r: Option<Scorecard>)
    ensures r.None? <==> checked && !InRange(raw)
    ensures r.Some? ==> r.value == raw
  {
    if checked then Validate(raw) else AsWrittenScorecard(raw)
  }

  /** The two cases of the test: the in-range card is accepted field for field, the 1.5 card rejected. */
  lemma ValidateMatchesTests()
    ensures Validate(Scorecard(0.8, 0.9, 0.85, 0.75)) == Some(Scorecard(0.8, 0.9, 0.85, 0.75))
    ensures Validate(Scorecard(1.5, 0.9, 0.85, 0.75)) == None
  {
  }
}
