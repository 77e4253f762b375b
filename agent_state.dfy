/** The records threaded through one run of the research agent
    (src/agent/state.py). They carry no behaviour of their own. */
module AgentTypes {

  /** `Decision`: the verdict of the Decide stage, which steers the loop. */
  datatype Decision = Stop | Continue

  /** `Source`: one search result; `id` is `S<n>` for its 1-based position. */
  datatype Source = Source(id: string, url: string, title: string, snippet: string)

  /** `BudgetState`: the resource ledger of one run. The type declaration
      names the list of stop reasons `reason`; the code that builds and
      updates the ledger uses `reasons`, which is followed here. */
  datatype BudgetState = BudgetState(
    searchCalls: int,
    pagesFetched: int,
    tokenEstimate: int,
    stopped: bool,
    reasons: seq<string>)

  /** `AgentState`: the run state every stage reads and returns. */
  datatype AgentState = AgentState(
    question: string,
    plan: string,
    researchEnabled: bool,
    sources: seq<Source>,
    notes: string,
    draft: string,
    critique: string,
    revision: string,
    decision: Decision,
    iteration: int,
    qualityScore: int,
    budget: BudgetState)

  /** The ledger a run starts with: no work charged, not stopped. */
  function InitialBudget(): BudgetState {
    BudgetState(0, 0, 0, false, [])
  }
}
