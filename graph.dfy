/**
 * The workflow graph of backend/agents/rave_agent.py: five step nodes in a
 * fixed cycle, each left through a conditional edge that goes on only when
 * the step did not return an error and, on the back-edge, only when the
 * stopping rule says to continue.
 */
module RaveGraph {

  datatype Node = Start | Evaluator | GapAnalyzer | QueryGenerator | Search | ResponseGenerator | End

  /** The five step nodes (the graph's own START and END are not steps). */
  predicate IsStep(n: Node) {
    !n.Start? && !n.End?
  }

  /** Where the True branch of each step's conditional edge leads. */
  function Successor(n: Node): Node
    requires IsStep(n)
  {
    match n
    case Evaluator => GapAnalyzer
    case GapAnalyzer => QueryGenerator
    case QueryGenerator => Search
    case Search => ResponseGenerator
    case ResponseGenerator => Evaluator
  }

  /**
   * The conditional edge out of step `from`. `errorFree` is `"error" not in
   * state`; `proceed` is `should_continue(state)`, consulted only on the
   * edge out of the response generator.
   */
  function Route(from: Node, errorFree: bool, proceed: bool): (to: Node)
    requires IsStep(from)
    ensures to == End || to == Successor(from)
    ensures to != End <==> errorFree && (from == ResponseGenerator ==> proceed)
  {
    if !errorFree then End
    else if from == ResponseGenerator && !proceed then End
    else Successor(from)
  }

  /** The edge set of the compiled graph: the START edge and both branches of every conditional edge. */
  const Edges: set<(Node, Node)> := {
    (Start, Evaluator),
    (Evaluator, GapAnalyzer), (Evaluator, End),
    (GapAnalyzer, QueryGenerator), (GapAnalyzer, End),
    (QueryGenerator, Search), (QueryGenerator, End),
    (Search, ResponseGenerator), (Search, End),
    (ResponseGenerator, Evaluator), (ResponseGenerator, End)
  }

  /** Every routing decision follows an edge of the graph, and the five cycle edges the tests require are present. */
  lemma RouteFollowsEdges(from: Node, errorFree: bool, proceed: bool)
    requires IsStep(from)
    ensures (from, Route(from, errorFree, proceed)) in Edges
    ensures (from, Successor(from)) in Edges
  {
  }

  /** The i-th step visited by a run that has met no error: the cycle entered at the evaluator. */
  function CycleAt(i: nat): (n: Node)
    ensures IsStep(n)
  {
    [Evaluator, GapAnalyzer, QueryGenerator, Search, ResponseGenerator][i % 5]
  }

  /** Following the True branch from the i-th step gives the (i+1)-th. */
  lemma SuccessorOfCycle(i: nat)
    ensures Successor(CycleAt(i)) == CycleAt(i + 1)
  {
  }

  /** How many of the first `n` steps of the cycle are evaluator visits. */
  function Visits(n: nat): nat {
    (n + 4) / 5
  }

  /** One more step adds a visit exactly when that step is the evaluator. */
  lemma VisitsStep(n: nat)
    ensures Visits(n + 1) == if CycleAt(n) == Evaluator then Visits(n) + 1 else Visits(n)
  {
    assert CycleAt(n) == Evaluator <==> n % 5 == 0;
  }
}
