/** The stage graph of a run (src/agent/graph.py, `build_graph`): a fixed
    chain planner → research → draft → critique → revise → decide and one
    conditional edge out of decide, chosen by `route`. What each stage does
    to the run state is not part of this model; the states the decide stage
    hands to `route` are an input. */
module Graph {
  import opened AgentTypes

  datatype Stage = Planner | Research | Draft | Critique | Revise | Decide

  /** Where control goes after a stage: another stage, or the end of the run. */
  datatype Next = Go(stage: Stage) | End

  /** The edge from START. */
  const Entry := Planner

  /** The number of fixed edges from a stage to decide. */
  function ToDecide(s: Stage): nat {
    match s
    case Planner => 5
    case Research => 4
    case Draft => 3
    case Critique => 2
    case Revise => 1
    case Decide => 0
  }

  /** The unconditional edges. Each one brings the run one step closer to
      decide and none leads back to the planner. */
  function FixedSuccessor(s: Stage): (t: Stage)
    requires s != Decide
    ensures ToDecide(t) + 1 == ToDecide(s)
    ensures t != Planner
  {
    match s
    case Planner => Research
    case Research => Draft
    case Draft => Critique
    case Critique => Revise
    case Revise => Decide
  }

  /** `route`: the end of the run when the decision is to stop, otherwise
      another research pass. */
  function Route(state: AgentState): (n: Next)
    ensures n == End <==> state.decision == Stop
    ensures n != End ==> n == Go(Research)
  {
    if state.decision == Stop then End else Go(Research)
  }

  /** The step out of a stage; `state` is the run state it produced. */
  function Successor(s: Stage, state: AgentState): (n: Next)
    ensures n != Go(Planner)
    ensures n == End ==> s == Decide && state.decision == Stop
  {
    if s == Decide then Route(state) else Go(FixedSuccessor(s))
  }

  /** The stages a run executes from `s` on, where `after[k]` is the run
      state the k-th visit to decide produces. A run given no state for a
      visit to decide ends there. */
  function Walk(s: Stage, after: seq<AgentState>): seq<Stage>
    decreases |after|, ToDecide(s)
  {
    if s != Decide then [s] + Walk(FixedSuccessor(s), after)
    else if after == [] then [Decide]
    else match Successor(Decide, after[0])
      case End => [Decide]
      case Go(t) => [Decide] + Walk(t, after[1..])
  }

  /** A whole run, from START. */
  function Run(after: seq<AgentState>): seq<Stage> {
    Walk(Entry, after)
  }

  /** One pass of the loop, research to decide. */
  const Pass := [Research, Draft, Critique, Revise, Decide]

  /** `k` passes of the loop, one after another. */
  function Passes(k: nat): (r: seq<Stage>)
    ensures |r| == 5 * k
  {
    if k == 0 then [] else Pass + Passes(k - 1)
  }

  /** The edges of the graph: the fixed chain and decide's back-edge. */
  predicate Edge(a: Stage, b: Stage) {
    if a == Decide then b == Research else b == FixedSuccessor(a)
  }

  /** The step function takes exactly the edges of the graph, and takes
      decide's back-edge only on a decision to continue. */
  lemma SuccessorIsEdge(a: Stage, b: Stage, state: AgentState)
    ensures Successor(a, state) == Go(b) <==> Edge(a, b) && (a == Decide ==> state.decision == Continue)
  {
  }

  /** `route` reads the decision and nothing else of the state. */
  lemma RouteOnlyReadsDecision(a: AgentState, b: AgentState)
    ensures Route(a) == Route(b) <==> a.decision == b.decision
  {
  }

  /** A walk that does not start at the planner never reaches it. */
  lemma {:induction false} WalkAvoidsPlanner(s: Stage, after: seq<AgentState>)
    requires s != Planner
    ensures Planner !in Walk(s, after)
    decreases |after|, ToDecide(s)
  {
    if s != Decide {
      WalkAvoidsPlanner(FixedSuccessor(s), after);
    } else if after != [] && Successor(Decide, after[0]) != End {
      WalkAvoidsPlanner(Research, after[1..]);
    }
  }

  /** The planner runs first and only once. */
  lemma PlannerRunsOnce(after: seq<AgentState>)
    ensures |Run(after)| >= 1 && Run(after)[0] == Planner
    ensures Planner !in Run(after)[1..]
  {
    WalkAvoidsPlanner(Research, after);
    assert Run(after) == [Planner] + Walk(Research, after);
  }

  /** From research the fixed chain leads to decide. */
  lemma ChainToDecide(after: seq<AgentState>)
    ensures Walk(Research, after) == [Research, Draft, Critique, Revise] + Walk(Decide, after)
  {
    assert Walk(Revise, after) == [Revise] + Walk(Decide, after);
    assert Walk(Critique, after) == [Critique, Revise] + Walk(Decide, after);
    assert Walk(Draft, after) == [Draft, Critique, Revise] + Walk(Decide, after);
  }

  /** From research, decisions to continue followed by one to stop give that
      many passes of the loop, and nothing after the stop matters. */
  lemma {:induction false} WalkOfPasses(after: seq<AgentState>, j: nat)
    requires j < |after| && after[j].decision == Stop
    requires forall i :: 0 <= i < j ==> after[i].decision == Continue
    ensures Walk(Research, after) == Passes(j + 1)
    decreases j
  {
    ChainToDecide(after);
    if j == 0 {
      assert Walk(Decide, after) == [Decide];
      assert Passes(1) == Pass + [];
    } else {
      var tail := after[1..];
      assert after[0].decision == Continue;
      assert Walk(Decide, after) == [Decide] + Walk(Research, tail);
      forall i | 0 <= i < j - 1
        ensures tail[i].decision == Continue
      {
        assert tail[i] == after[i + 1];
      }
      WalkOfPasses(tail, j - 1);
    }
  }

  /** A run whose first decision to stop is the (j+1)-th executes the
      planner once and then j + 1 full passes: 1 + 5(j + 1) stages. */
  lemma RunOfPasses(after: seq<AgentState>, j: nat)
    requires j < |after| && after[j].decision == Stop
    requires forall i :: 0 <= i < j ==> after[i].decision == Continue
    ensures Run(after) == [Planner] + Passes(j + 1)
    ensures |Run(after)| == 1 + 5 * (j + 1)
  {
    WalkOfPasses(after, j);
  }

  /** Every walk follows the edges of the graph and ends at decide. */
  lemma {:induction false} WalkFollowsEdges(s: Stage, after: seq<AgentState>)
    ensures var w := Walk(s, after);
      |w| >= 1 && w[0] == s && w[|w| - 1] == Decide &&
      forall i :: 0 <= i < |w| - 1 ==> Edge(w[i], w[i + 1])
    decreases |after|, ToDecide(s)
  {
    var w := Walk(s, after);
    if s != Decide {
      var t := FixedSuccessor(s);
      WalkFollowsEdges(t, after);
      assert w == [s] + Walk(t, after);
    } else if after != [] && Successor(Decide, after[0]) != End {
      WalkFollowsEdges(Research, after[1..]);
      assert w == [Decide] + Walk(Research, after[1..]);
    }
  }

  /** A run starts at the planner, follows the edges and stops only at decide. */
  lemma RunFollowsEdges(after: seq<AgentState>)
    ensures var r := Run(after);
      |r| >= 1 && r[0] == Planner && r[|r| - 1] == Decide &&
      forall i :: 0 <= i < |r| - 1 ==> Edge(r[i], r[i + 1])
  {
    WalkFollowsEdges(Entry, after);
  }
}
