/**
 * The earlier copy of the refinement loop in src/agents/rave_agent.py. Its
 * steps and its state check are those of the backend: they hand the
 * external services the same model name ("gpt-4") and result count (3),
 * written as literals where the backend names the settings, so they are
 * `Rave.State`'s methods and `Rave.ValidateState`. What differs
 * is stated here: the stopping rule writes its constants as literals, and
 * the graph it builds has no edge from START into the refinement steps.
 */
module RaveSrc {
  import opened Scores
  import opened RaveGraph
  import Rave

  /** `should_continue` with the literal budget 3, threshold 0.9 and improvement 0.05; it is the backend's rule. */
  function ShouldContinue(s: Rave.Snapshot): (r: bool)
    ensures r == Rave.ShouldContinue(s)
  {
    var sc := s.attemptHistory.scores;
    if !Rave.ValidateState(s) then false
    else if |sc| >= 3 then false
    else if |sc| > 1 then
      var last := sc[|sc| - 1];
      var prev := sc[|sc| - 2];
      if last.completeness >= 0.9 && last.accuracy >= 0.9 && last.relevance >= 0.9 && last.clarity >= 0.9 then false
      else if Abs(last.completeness - prev.completeness) < 0.05 && Abs(last.accuracy - prev.accuracy) < 0.05
              && Abs(last.relevance - prev.relevance) < 0.05 && Abs(last.clarity - prev.clarity) < 0.05 then false
      else true
    else true
  }

  /**
   * The edges of the refinement steps in the src graph: the five conditional
   * edges of the backend, with the START edge left commented out.
   */
  const SrcEdges: set<(Node, Node)> := {
    (Evaluator, GapAnalyzer), (Evaluator, End),
    (GapAnalyzer, QueryGenerator), (GapAnalyzer, End),
    (QueryGenerator, Search), (QueryGenerator, End),
    (Search, ResponseGenerator), (Search, End),
    (ResponseGenerator, Evaluator), (ResponseGenerator, End)
  }

  /**
   * The src graph routes every step as the backend does, but nothing leads
   * from START into the cycle: its edge set is the backend's without
   * START -> evaluator.
   */
  lemma SrcRoutesLikeBackend(from: Node, errorFree: bool, proceed: bool)
    requires IsStep(from)
    ensures (from, Route(from, errorFree, proceed)) in SrcEdges
    ensures SrcEdges == Edges - {(Start, Evaluator)}
    ensures forall n :: (Start, n) !in SrcEdges
  {
  }
}
