/** The budget guard (src/agent/guards.py, `BudgetGuard`): three resource
    ceilings charged against the run's budget record, and a sticky stop
    flag with a log of why it was set.

    The pure functions below say what one charge does to a `BudgetState`
    value; the classes are the record that the Python code updates in place
    and the guard that updates it, and each method is tied to its function. */
module BudgetGuards {
  import opened Text
  import opened AgentTypes

  /** The three ceilings. The source reads them from the environment, with
      defaults 6, 6 and 24000. */
  datatype Limits = Limits(maxSearchCalls: int, maxPagesFetched: int, maxTokenEstimate: int)

  const DefaultLimits := Limits(6, 6, 24000)

  /** Every ceiling is at least zero. The chat front end bounds the search
      and fetch ceilings below by zero; the token ceiling and every ceiling
      read from the environment may be negative, so the properties that need
      this say so. */
  predicate NonNegative(lim: Limits) {
    lim.maxSearchCalls >= 0 && lim.maxPagesFetched >= 0 && lim.maxTokenEstimate >= 0
  }

  const SearchLimitReason := "Maximum search calls limit exceeded."
  const FetchLimitReason := "Maximum pages fetch limit exceeded."

  /** `f"Token estimate exceeded after {reason} (+{inc})."` */
  function TokenLimitReason(reason: string, inc: nat): string {
    "Token estimate exceeded after " + reason + " (+" + DecimalString(inc) + ")."
  }

  /** One call on the guard. */
  datatype Charge =
    | ChargeTokens(text: string, reason: string)  // `add_tokens`
    | ChargeSearch                                // `inc_search`
    | ChargeFetch                                 // `fetch`
    | ForceStop(why: string)                      // `stop`

  /** `stop`: set the flag and log the reason, whatever the flag was. */
  function Stopped(b: BudgetState, why: string): BudgetState {
    b.(stopped := true, reasons := b.reasons + [why])
  }

  /** The budget after one charge. */
  function Apply(lim: Limits, b: BudgetState, c: Charge): BudgetState {
    match c
    case ChargeTokens(text, reason) =>
      var inc := RoughTokenEstimation(text);
      var b' := b.(tokenEstimate := b.tokenEstimate + inc);
      if b'.tokenEstimate > lim.maxTokenEstimate then Stopped(b', TokenLimitReason(reason, inc)) else b'
    case ChargeSearch =>
      var b' := b.(searchCalls := b.searchCalls + 1);
      if b'.searchCalls > lim.maxSearchCalls then Stopped(b', SearchLimitReason) else b'
    case ChargeFetch =>
      var b' := b.(pagesFetched := b.pagesFetched + 1);
      if b'.pagesFetched > lim.maxPagesFetched then Stopped(b', FetchLimitReason) else b'
    case ForceStop(why) =>
      Stopped(b, why)
  }

  /** The budget after a sequence of charges, in order. */
  function ApplyAll(lim: Limits, b: BudgetState, cs: seq<Charge>): BudgetState
    decreases |cs|
  {
    if cs == [] then b else ApplyAll(lim, Apply(lim, b, cs[0]), cs[1..])
  }

  /** Some counter is past its ceiling. */
  predicate OverLimit(lim: Limits, b: BudgetState) {
    b.searchCalls > lim.maxSearchCalls || b.pagesFetched > lim.maxPagesFetched
    || b.tokenEstimate > lim.maxTokenEstimate
  }

  /** What holds of every budget a run can reach: the flag is set exactly
      when a reason has been logged, and a counter past its ceiling means
      the flag is set. */
  predicate Sound(lim: Limits, b: BudgetState) {
    Consistent(b) && (OverLimit(lim, b) ==> b.stopped)
  }

  /** The flag is set exactly when a reason has been logged. */
  predicate Consistent(b: BudgetState) {
    b.stopped <==> b.reasons != []
  }

  // ------------------------------------------------ counting the charges

  function SearchCount(cs: seq<Charge>): nat {
    if cs == [] then 0 else (if cs[0].ChargeSearch? then 1 else 0) + SearchCount(cs[1..])
  }

  function FetchCount(cs: seq<Charge>): nat {
    if cs == [] then 0 else (if cs[0].ChargeFetch? then 1 else 0) + FetchCount(cs[1..])
  }

  /** The estimated tokens of every token charge in `cs`. */
  function TokenTotal(cs: seq<Charge>): nat {
    if cs == [] then 0
    else (if cs[0].ChargeTokens? then RoughTokenEstimation(cs[0].text) else 0) + TokenTotal(cs[1..])
  }

  // ---------------------------------------------------------------- lemmas

  /** The ledger a run starts with is sound for ceilings of zero or more. */
  lemma InitialBudgetSound(lim: Limits)
    requires NonNegative(lim)
    ensures Sound(lim, InitialBudget())
  {
  }

  /** One charge: each counter moves by its own step only, the flag is never
      cleared, at most one reason is appended and earlier reasons stay, and
      soundness is kept. */
  lemma ApplyStep(lim: Limits, b: BudgetState, c: Charge)
    ensures var r := Apply(lim, b, c);
      r.searchCalls == b.searchCalls + (if c.ChargeSearch? then 1 else 0) &&
      r.pagesFetched == b.pagesFetched + (if c.ChargeFetch? then 1 else 0) &&
      r.tokenEstimate == b.tokenEstimate + (if c.ChargeTokens? then RoughTokenEstimation(c.text) else 0) &&
      (b.stopped ==> r.stopped) &&
      (r.reasons == b.reasons || r.reasons == b.reasons + [r.reasons[|r.reasons| - 1]]) &&
      (Sound(lim, b) ==> Sound(lim, r))
  {
  }

  /** A search charge stops the budget exactly when the new count is strictly
      above the ceiling: at the ceiling nothing is logged, and with a ceiling
      of zero the first search stops. */
  lemma SearchThreshold(lim: Limits, b: BudgetState)
    ensures var r := Apply(lim, b, ChargeSearch);
      (r.reasons == b.reasons + [SearchLimitReason] <==> b.searchCalls + 1 > lim.maxSearchCalls) &&
      (r.reasons == b.reasons <==> b.searchCalls + 1 <= lim.maxSearchCalls) &&
      r.stopped == (b.stopped || b.searchCalls + 1 > lim.maxSearchCalls)
  {
    var r := Apply(lim, b, ChargeSearch);
    assert |b.reasons + [SearchLimitReason]| != |b.reasons|;
  }

  /** A fetch charge stops the budget exactly when the new count is strictly
      above the ceiling. */
  lemma FetchThreshold(lim: Limits, b: BudgetState)
    ensures var r := Apply(lim, b, ChargeFetch);
      (r.reasons == b.reasons + [FetchLimitReason] <==> b.pagesFetched + 1 > lim.maxPagesFetched) &&
      (r.reasons == b.reasons <==> b.pagesFetched + 1 <= lim.maxPagesFetched) &&
      r.stopped == (b.stopped || b.pagesFetched + 1 > lim.maxPagesFetched)
  {
    var r := Apply(lim, b, ChargeFetch);
    assert |b.reasons + [FetchLimitReason]| != |b.reasons|;
  }

  /** A token charge logs a reason whenever the running total is above the
      ceiling, even for an empty text once the total is already over. */
  lemma TokenThreshold(lim: Limits, b: BudgetState, text: string, reason: string)
    ensures var inc := RoughTokenEstimation(text);
      var r := Apply(lim, b, ChargeTokens(text, reason));
      r.tokenEstimate >= b.tokenEstimate &&
      (r.reasons == b.reasons + [TokenLimitReason(reason, inc)] <==> b.tokenEstimate + inc > lim.maxTokenEstimate) &&
      (r.reasons == b.reasons <==> b.tokenEstimate + inc <= lim.maxTokenEstimate)
  {
    var inc := RoughTokenEstimation(text);
    assert |b.reasons + [TokenLimitReason(reason, inc)]| != |b.reasons|;
  }

  /** With a search ceiling of zero, the first search of a run stops it. */
  lemma ZeroSearchCeilingStopsFirstSearch(lim: Limits)
    requires lim.maxSearchCalls == 0
    ensures Apply(lim, InitialBudget(), ChargeSearch).stopped
    ensures Apply(lim, InitialBudget(), ChargeSearch).reasons == [SearchLimitReason]
  {
  }

  /** Any sequence of charges: the counters grow by exactly the number of
      searches, the number of fetches and the estimated tokens charged; the
      flag is never cleared; the reasons only grow, keeping the old ones as
      a prefix; and soundness is kept. */
  lemma {:induction false} ApplyAllLedger(lim: Limits, b: BudgetState, cs: seq<Charge>)
    ensures var r := ApplyAll(lim, b, cs);
      r.searchCalls == b.searchCalls + SearchCount(cs) &&
      r.pagesFetched == b.pagesFetched + FetchCount(cs) &&
      r.tokenEstimate == b.tokenEstimate + TokenTotal(cs) &&
      (b.stopped ==> r.stopped) &&
      |b.reasons| <= |r.reasons| && r.reasons[..|b.reasons|] == b.reasons &&
      (Sound(lim, b) ==> Sound(lim, r))
    decreases |cs|
  {
    if cs != [] {
      var b1 := Apply(lim, b, cs[0]);
      ApplyStep(lim, b, cs[0]);
      ApplyAllLedger(lim, b1, cs[1..]);
      var r := ApplyAll(lim, b1, cs[1..]);
      assert r.reasons[..|b1.reasons|][..|b.reasons|] == r.reasons[..|b.reasons|];
    }
  }

  /** With the default ceilings, six searches leave a fresh run going and
      the seventh stops it with the search reason. */
  lemma DefaultSeventhSearchStops()
    ensures var six := ApplyAll(DefaultLimits, InitialBudget(), [ChargeSearch, ChargeSearch,
        ChargeSearch, ChargeSearch, ChargeSearch, ChargeSearch]);
      six.searchCalls == 6 && !six.stopped && six.reasons == [] &&
      Apply(DefaultLimits, six, ChargeSearch).stopped &&
      Apply(DefaultLimits, six, ChargeSearch).reasons == [SearchLimitReason]
  {
  }

  /** Whatever the ceilings, negative ones included, any sequence of charges
      keeps the flag set exactly when a reason is logged: only `stop` touches
      either, and it touches both. */
  lemma {:induction false} ApplyAllConsistent(lim: Limits, b: BudgetState, cs: seq<Charge>)
    requires Consistent(b)
    ensures Consistent(ApplyAll(lim, b, cs))
    decreases |cs|
  {
    if cs != [] {
      ApplyAllConsistent(lim, Apply(lim, b, cs[0]), cs[1..]);
    }
  }

  /** From the initial ledger, whatever the charges and the ceilings: the run
      is stopped exactly when a reason was logged. With ceilings of zero or
      more, it is also stopped whenever more searches, fetches or tokens were
      charged than the ceilings allow. */
  lemma RunBudgetSound(lim: Limits, cs: seq<Charge>)
    ensures var r := ApplyAll(lim, InitialBudget(), cs);
      (r.stopped <==> r.reasons != []) &&
      (NonNegative(lim) ==>
        (SearchCount(cs) > lim.maxSearchCalls || FetchCount(cs) > lim.maxPagesFetched
         || TokenTotal(cs) > lim.maxTokenEstimate) ==> r.stopped)
  {
    ApplyAllConsistent(lim, InitialBudget(), cs);
    if NonNegative(lim) {
      ApplyAllLedger(lim, InitialBudget(), cs);
    }
  }

  // --------------------------------------------------------------- classes

  /** The mutable `state["budget"]` record of a run. */
  class Budget {
    var searchCalls: int
    var pagesFetched: int
    var tokenEstimate: int
    var stopped: bool
    var reasons: seq<string>

    /** The record as a value. */
    function Snapshot(): BudgetState
      reads this
    {
      BudgetState(searchCalls, pagesFetched, tokenEstimate, stopped, reasons)
    }

    /** The record both front ends build for a new question. */
    constructor ()
      ensures Snapshot() == InitialBudget()
    {
      searchCalls, pagesFetched, tokenEstimate := 0, 0, 0;
      stopped, reasons := false, [];
    }
  }

  /** `BudgetGuard`: the ceilings, and the charges that update a run's
      budget record. */
  class BudgetGuard {
    const limits: Limits

    /** The ceilings are parameters here; the source reads them from the
        environment. */
    constructor (maxSearchCalls: int, maxPagesFetched: int, maxTokenEstimate: int)
      ensures limits == Limits(maxSearchCalls, maxPagesFetched, maxTokenEstimate)
    {
      limits := Limits(maxSearchCalls, maxPagesFetched, maxTokenEstimate);
    }

    /** `stop`: sets the flag and appends the reason, even when the budget is
        already stopped; the counters are untouched. */
    method Stop(b: Budget, why: string)
      modifies b
      ensures b.stopped && b.reasons == old(b.reasons) + [why]
      ensures b.searchCalls == old(b.searchCalls) && b.pagesFetched == old(b.pagesFetched)
      ensures b.tokenEstimate == old(b.tokenEstimate)
      ensures b.Snapshot() == Apply(limits, old(b.Snapshot()), ForceStop(why))
      ensures Sound(limits, old(b.Snapshot())) ==> Sound(limits, b.Snapshot())
    {
      b.stopped := true;
      b.reasons := b.reasons + [why];
    }

    /** `add_tokens`: charges the estimate of `text`, then stops the budget if
        the running total is above its ceiling. */
    method AddTokens(b: Budget, text: string, reason: string)
      modifies b
      ensures b.tokenEstimate == old(b.tokenEstimate) + RoughTokenEstimation(text)
      ensures b.searchCalls == old(b.searchCalls) && b.pagesFetched == old(b.pagesFetched)
      ensures b.stopped == (old(b.stopped) || b.tokenEstimate > limits.maxTokenEstimate)
      ensures b.reasons == old(b.reasons)
        + if b.tokenEstimate > limits.maxTokenEstimate
          then [TokenLimitReason(reason, RoughTokenEstimation(text))] else []
      ensures b.Snapshot() == Apply(limits, old(b.Snapshot()), ChargeTokens(text, reason))
      ensures Sound(limits, old(b.Snapshot())) ==> Sound(limits, b.Snapshot())
    {
      ghost var before := b.Snapshot();
      var inc := RoughTokenEstimation(text);
      b.tokenEstimate := b.tokenEstimate + inc;
      if b.tokenEstimate > limits.maxTokenEstimate {
        Stop(b, TokenLimitReason(reason, inc));
      }
      ApplyStep(limits, before, ChargeTokens(text, reason));
    }

    /** `inc_search`: counts one search, then stops the budget if the count is
        above its ceiling. */
    method IncSearch(b: Budget)
      modifies b
      ensures b.searchCalls == old(b.searchCalls) + 1
      ensures b.pagesFetched == old(b.pagesFetched) && b.tokenEstimate == old(b.tokenEstimate)
      ensures b.stopped == (old(b.stopped) || b.searchCalls > limits.maxSearchCalls)
      ensures b.reasons == old(b.reasons)
        + if b.searchCalls > limits.maxSearchCalls then [SearchLimitReason] else []
      ensures b.Snapshot() == Apply(limits, old(b.Snapshot()), ChargeSearch)
      ensures Sound(limits, old(b.Snapshot())) ==> Sound(limits, b.Snapshot())
    {
      ghost var before := b.Snapshot();
      b.searchCalls := b.searchCalls + 1;
      if b.searchCalls > limits.maxSearchCalls {
        Stop(b, SearchLimitReason);
      }
      ApplyStep(limits, before, ChargeSearch);
    }

    /** `fetch`: counts one fetched page, then stops the budget if the count is
        above its ceiling. */
    method Fetch(b: Budget)
      modifies b
      ensures b.pagesFetched == old(b.pagesFetched) + 1
      ensures b.searchCalls == old(b.searchCalls) && b.tokenEstimate == old(b.tokenEstimate)
      ensures b.stopped == (old(b.stopped) || b.pagesFetched > limits.maxPagesFetched)
      ensures b.reasons == old(b.reasons)
        + if b.pagesFetched > limits.maxPagesFetched then [FetchLimitReason] else []
      ensures b.Snapshot() == Apply(limits, old(b.Snapshot()), ChargeFetch)
      ensures Sound(limits, old(b.Snapshot())) ==> Sound(limits, b.Snapshot())
    {
      ghost var before := b.Snapshot();
      b.pagesFetched := b.pagesFetched + 1;
      if b.pagesFetched > limits.maxPagesFetched {
        Stop(b, FetchLimitReason);
      }
      ApplyStep(limits, before, ChargeFetch);
    }

    /** `is_stopped`: reads the flag. */
    method IsStopped(b: Budget) returns (stopped: bool)
      ensures stopped == b.stopped
      ensures stopped == b.Snapshot().stopped
    {
      stopped := b.stopped;
    }
  }
}
