# Research agent core: budget guard, quality gate, text helpers and stage graph

This project models the deterministic core of a research agent. The agent
plans a question, runs research, drafts, critiques, revises and decides, in a
loop. Four parts are modelled:

- **Budget guard** (`BudgetGuards`). The guard offers four calls on a
  per-run ledger: charge a search, charge a page fetch, charge the token
  estimate of a text, and `stop`. The ledger records a reason and is
  flagged as stopped once a counter goes over its ceiling. It is modelled
  twice:
  - `BudgetGuards.BudgetGuard` is a class whose methods update a `Budget`
    record in place, as the source does;
  - `Apply`/`ApplyAll` give the same step as a pure function, and the
    run-level invariants are proved about it.
- **Quality gate** (`QualityGates.Check`). A first-match decision table.
  Given the research setting, the citation setting and a draft, it returns
  the score 3, 5, 6, 8 or 9 and the critique text.
- **Text helpers** (`Text`):
  - the rough token estimate;
  - the `[S<digits>]` citation-marker search;
  - the line scan that reports claim lines lacking an inline `[S` citation.

  The Python string operations these helpers use are defined here on
  `seq<char>`: `in`, `strip`, `startswith`, `splitlines` and `join`.
- **Stage graph** (`Graph`):
  - the fixed chain planner → research → draft → critique → revise → decide;
  - the `route` edge out of decide;
  - whole runs as sequences of executed stages.

The records the stages pass around are datatypes in `AgentTypes`.

The line scan's digit test is a parameter (`Text.DigitTest`). `AsWritten` is
the test the source runs (see Findings). `Intended` is the test the scan's
own documentation describes: the line holds a digit. Every property of the
gate and the scan is stated for the test it holds for.

The scan's docstring (src/agent/utils.py:27-30) and its name say that it
reports lines containing digits. The code does not look at digits (see
Findings). `AsWritten` follows the code.

The type declaration of the budget record (src/agent/state.py:16) names its
list of reasons `reason`. The code that updates the record
(src/agent/guards.py:29) uses `reasons`, and so does the model.

## Model

| member | source | states |
|---|---|---|
| Text.RoughTokenEstimation | src/agent/utils.py:17-21 | The empty text costs 0 tokens. Any other text costs n ≥ 1 tokens, with 4(n−1) < length ≤ 4n, i.e. the ceiling of length/4. |
| Text.RoughTokenEstimationMonotone | src/agent/utils.py:17-21 | A text that is no longer never costs more tokens. |
| Text.DecimalString | src/agent/guards.py:15 | The increment written into the token reason is a non-empty string of decimal digits. |
| Text.DecimalStringValue | src/agent/guards.py:15 | Those digits denote the increment itself and have no leading zero, as `str(inc)` writes it. |
| Text.DigitRunEnd | src/agent/utils.py:24 | The greedy `\d+` run from a position: every character up to its end is a digit, and the character after it is not. |
| Text.HasCitationMarkers | src/agent/utils.py:23-24 | The regex search: some position starts `[S`, a greedy digit run of length one or more, then `]`. Its meaning is stated by `Text.HasCitationMarkersIff`. |
| Text.HasCitationMarkersIff | src/agent/utils.py:23-24 | A text has a citation marker exactly when it holds `[S`, one or more digits, then `]`. The empty text (the source's `text or ""`) has none. |
| Text.MarkerContainsOpening | src/agent/utils.py:23-24 | A text with a marker contains `[S`, so a marked line is never reported by the scan. |
| Text.StripLeftSpec | src/agent/utils.py:36 | `lstrip` removes exactly the maximal prefix of whitespace. |
| Text.StripRightSpec | src/agent/utils.py:36 | `rstrip` removes exactly the maximal suffix of whitespace. |
| Text.Strip | src/agent/utils.py:36 | `strip()` as `lstrip` then `rstrip`. Its meaning is stated by `Text.StripSpec`, `Text.StripEmptyIff` and `Text.StripIdempotent`. |
| Text.StripSpec | src/agent/utils.py:36-38 | `strip()` returns the contiguous slice of the line left after removing all leading and trailing whitespace. |
| Text.StripEmptyIff | src/agent/utils.py:38-39 | A stripped line is empty exactly when every character of the line is whitespace. |
| Text.StripIdempotent | src/agent/utils.py:36-38 | Stripping a stripped line changes nothing. |
| Text.StripContains | src/agent/utils.py:34-38 | Whatever the stripped line contains, the line contains. |
| Text.StripKeepsDigit | src/agent/utils.py:34-38 | A line holding a digit still holds one after stripping. |
| Text.SplitOnNewline | src/agent/utils.py:33 | Splitting at newlines gives at least one piece, and no piece holds a newline. |
| Text.SplitLines | src/agent/utils.py:33 | `splitlines()` of the empty text is empty; of any other text it is non-empty; no line holds a newline. |
| Text.JoinSplitOnNewline | src/agent/utils.py:33 | Joining the pieces with `"\n"` gives back the text. |
| Text.SplitLinesJoin | src/agent/utils.py:33 | Joining the lines gives back the text, up to the one trailing newline `splitlines` drops. |
| Text.JoinThenSplitLines | src/agent/utils.py:33 | Newline-free lines joined with `"\n"` split back into the same lines when the last line is not empty. |
| Text.Candidates | src/agent/utils.py:32-38 | The list `bad` after the loop: each candidate line, stripped, in order. Its step is stated by `Text.CandidatesSnoc` and `Text.FlaggedStep`. |
| Text.NonEmpty | src/agent/utils.py:39 | The comprehension that drops empty entries. Its step is stated by `Text.NonEmptySnoc` and `Text.FlaggedStep`. |
| Text.FlaggedLines | src/agent/utils.py:32-39 | The scan's result as a function of the text. Its meaning is stated by `Text.FlaggedMembership`, `Text.FlaggedLinesShape` and `Text.FlaggedLinesOrder`. |
| Text.FindNumericClaimLinesWithoutCites | src/agent/utils.py:26-39 | The loop over the lines returns exactly `FlaggedLines(text, test)`: each line that passes the digit test, lacks `[S` and is not a `#` heading, stripped, with empty results removed. |
| Text.PassesDigitTest | src/agent/utils.py:34 | The digit test of the scan: as written, any non-empty line; intended, a line holding a digit. Its effect is stated by `Text.AsWrittenReportedIff` and `Text.IntendedFlaggedLinesHaveDigits`. |
| Text.IsCandidate | src/agent/utils.py:34-38 | The line is appended to `bad`: it passes the digit test, lacks `[S`, and its stripped form does not start with `#`. Its effect is stated by `Text.FlaggedStep`. |
| Text.IsReported | src/agent/utils.py:34-39 | A candidate whose stripped form survives the final filter. It is characterised by `Text.AsWrittenReportedIff` and `Text.FlaggedMembership`. |
| Text.Pick | src/agent/utils.py:34-38 | What one line adds to `bad`: its stripped form when it is a candidate, otherwise nothing. Its effect is stated by `Text.CandidatesSnoc`. |
| Text.OccursAt | src/agent/utils.py:34 | `p` occurs in `s` starting at index `i`. It is the building block of `Text.Contains`. |
| Text.Contains | src/agent/utils.py:34 | Python's `in` on strings: some index where the pattern occurs. `Text.StripContains` and `Text.NotContainsFirstChar` state its properties. |
| Text.NotContainsFirstChar | src/agent/utils.py:34 | A string lacking the pattern's first character does not contain the pattern. |
| Text.StartsWith | src/agent/utils.py:36 | Python's `startswith`: the pattern is a prefix. `Text.FlaggedLinesShape` uses it. |
| Text.StripLeft | src/agent/utils.py:36 | The leading-whitespace removal inside `strip()`. It is characterised by `Text.StripLeftSpec`. |
| Text.StripRight | src/agent/utils.py:36 | The trailing-whitespace removal inside `strip()`. It is characterised by `Text.StripRightSpec`. |
| Text.Join | src/agent/guards.py:54 | Python's `sep.join(parts)`. `Text.JoinSplitOnNewline` and `Text.JoinThenSplitLines` state its round trips with the split. |
| Text.FlaggedStep | src/agent/utils.py:33-39 | A further line adds its stripped form to the report when it is reported, and adds nothing otherwise. |
| Text.FlaggedMembership | src/agent/utils.py:32-39 | A string is in the report exactly when it is the stripped form of some reported line. |
| Text.FlaggedLinesShape | src/agent/utils.py:34-39 | Every reported entry is non-empty and already stripped. It holds no newline, does not start with `#` and does not contain `[S`. |
| Text.FlaggedLinesOrder | src/agent/utils.py:32-39 | The report is a subsequence of the stripped lines, in text order, and is never longer than the list of lines. |
| Text.AsWrittenReportedIff | src/agent/utils.py:34-38 | As written, a line is reported exactly when its stripped form is non-empty and not a `#` heading, and it lacks `[S`. Digits play no part. |
| Text.AsWrittenIgnoresDigits | src/agent/utils.py:34 | As written, a string is reported exactly when it is the non-empty stripped form of a line that lacks `[S` and is not a `#` heading. No digit condition appears. |
| Text.IntendedFlaggedLinesHaveDigits | src/agent/utils.py:34 | With the intended test every reported entry holds a digit. |
| Text.AsWrittenFlagsDigitFreeLine | src/agent/utils.py:34 | A plain line with no digit is reported as written, and not reported with the intended test. |
| Text.TwoLineScan | src/agent/utils.py:33-39 | A two-line text is split into its two lines. Its report holds each reported line in turn. |
| QualityGates.Bullets | src/agent/guards.py:54 | Each listed line is prefixed with `"- "`. |
| QualityGates.CitationDuty | src/agent/guards.py:43 | Citations are due exactly when research is on and citations are required. Its effect is stated by `QualityGates.CheckWithoutCitationDuty` and `QualityGates.CheckWithCitationDuty`. |
| QualityGates.Check | src/agent/guards.py:39-57 | The score is always one of 3, 5, 6, 8, 9, within the documented 0–10. |
| QualityGates.CheckWithoutCitationDuty | src/agent/guards.py:43-47 | With research off or citations not required, the score is 8 exactly when the text holds `verify` or `Verify`, else 5. Markers and lines play no part. |
| QualityGates.CheckWithCitationDuty | src/agent/guards.py:49-57 | With a citation duty the score is 3 exactly when no marker is present. It is 6 exactly when a marker is present and some line is reported, and 9 exactly when a marker is present and no line is reported. |
| QualityGates.NoFlaggedLinesIff | src/agent/guards.py:52-53 | The scan reports nothing exactly when no line is reported. |
| QualityGates.CheckPassesIff | src/agent/guards.py:49-57 | As written, the gate gives 9 exactly when the draft has a marker and every line is blank, a heading, or holds `[S`. |
| QualityGates.CheckIntendedPassesIff | src/agent/guards.py:49-57 | With the intended test, 9 exactly when the draft has a marker and every line is blank, a heading, holds `[S`, or has no digit. |
| QualityGates.Sample | src/agent/guards.py:54 | The first six flagged lines as `"- "` bullets joined by newlines. Its meaning is stated by `QualityGates.SampleLines`. |
| QualityGates.SampleLines | src/agent/guards.py:54 | The sample is the first min(n, 6) reported lines as `"- "` bullets, one per line. |
| QualityGates.CheckFlagsListFirstSix | src/agent/guards.py:52-55 | A score of 6 carries the header followed by the first six (or fewer) reported lines, one `"- "` bullet each. |
| QualityGates.ExampleVerifyWithoutResearch | src/agent/guards.py:43-45 | A draft mentioning "verify" with research off scores 8 with the verification-present message. |
| QualityGates.NoBracketNoMarker | src/agent/guards.py:49-50 | A text without `[` has no citation marker. |
| QualityGates.ExampleNoMarkers | src/agent/guards.py:49-50 | A draft without markers under a citation duty scores 3 with the missing-citations message. |
| QualityGates.GateOnCitedFirstLine | src/agent/guards.py:49-57 | For a two-line draft whose first line holds a marker, the verdict rests on the second line. If that line is reported, the score is 6 and the feedback is the header plus that line as a bullet; otherwise the score is 9. |
| QualityGates.MarkerInFirstLine | src/agent/utils.py:23-24 | A marker in the first line of a text is a marker of the whole text. |
| QualityGates.ExampleUncitedSecondLine | src/agent/guards.py:52-55 | A cited dated claim followed by an uncited one scores 6. The feedback lists the uncited line. |
| QualityGates.AsWrittenGateFlagsDigitFreeLine | src/agent/utils.py:34 | As written, `"[S1]"` followed by a line with no number scores 6. With the intended test it scores 9. |
| AgentTypes.InitialBudget | app.py:91-97 | The fresh ledger: counters at 0, not stopped, no reasons. `BudgetGuards.InitialBudgetSound` and `BudgetGuards.RunBudgetSound` state what runs from it keep. |
| BudgetGuards.TokenLimitReason | src/agent/guards.py:15 | The reason `add_tokens` logs, with the caller's reason and the increment written in decimal. `BudgetGuards.TokenThreshold` states when it is logged. `Text.DecimalStringValue` states that its digits denote the increment. |
| BudgetGuards.Stopped | src/agent/guards.py:27-29 | `stop` on a ledger value: the flag set and the reason appended. `BudgetGuards.ApplyStep` and `BudgetGuards.BudgetGuard.Stop` state its effect. |
| BudgetGuards.Apply | src/agent/guards.py:11-29 | One call on the guard as a function of the ledger. Its properties are stated by `BudgetGuards.ApplyStep` and the three threshold lemmas. The class methods are proved equal to it. |
| BudgetGuards.ApplyAll | src/agent/guards.py:11-29 | A sequence of calls, in order. Its properties are stated by `BudgetGuards.ApplyAllLedger` and `BudgetGuards.RunBudgetSound`. |
| BudgetGuards.InitialBudgetSound | src/agent/guards.py:4-32 | With non-negative ceilings the fresh ledger is consistent: it is stopped exactly when a reason is logged, and stopped whenever a counter is over its ceiling. |
| BudgetGuards.ApplyStep | src/agent/guards.py:11-29 | One charge moves only its own counter, by 1 or by the token estimate. It never clears the stopped flag and appends at most one reason after the old ones. It keeps the ledger consistent. |
| BudgetGuards.SearchThreshold | src/agent/guards.py:17-20 | A search stops the budget and logs the search reason exactly when the new count is strictly above the ceiling. |
| BudgetGuards.FetchThreshold | src/agent/guards.py:22-25 | A fetch stops the budget and logs the fetch reason exactly when the new count is strictly above the ceiling. |
| BudgetGuards.TokenThreshold | src/agent/guards.py:11-15 | A token charge never lowers the total. It logs the token reason, with the reason and increment, exactly when the new total is above the ceiling. |
| BudgetGuards.ZeroSearchCeilingStopsFirstSearch | src/agent/guards.py:17-20 | With a search ceiling of 0 the first search stops the run with the search reason. |
| BudgetGuards.DefaultSeventhSearchStops | src/agent/guards.py:7-20 | With the default ceilings, six searches leave a fresh run going with no reason logged. The seventh stops it with the search reason. |
| BudgetGuards.ApplyAllLedger | src/agent/guards.py:11-29 | After any sequence of charges, each counter has grown by exactly what was charged. The flag is never cleared, the old reasons remain a prefix, and consistency is kept. |
| BudgetGuards.ApplyAllConsistent | src/agent/guards.py:11-29 | For any ceilings, negative ones included, a sequence of charges keeps the ledger's flag set exactly when a reason is logged. |
| BudgetGuards.RunBudgetSound | src/agent/guards.py:11-32 | From the fresh ledger, for any ceilings, a run is stopped exactly when some reason was logged. With ceilings of zero or more, it is stopped whenever more searches, fetches or tokens were charged than the ceilings allow. |
| BudgetGuards.Budget.constructor | app.py:91-97 | A new budget record is the fresh ledger. |
| BudgetGuards.BudgetGuard.constructor | src/agent/guards.py:6-9 | The guard holds the three ceilings it is given. |
| BudgetGuards.BudgetGuard.Stop | src/agent/guards.py:27-29 | Sets the flag and appends the reason, even when already stopped. The counters are unchanged. |
| BudgetGuards.BudgetGuard.AddTokens | src/agent/guards.py:11-15 | Adds the token estimate. It stops the budget with the token reason exactly when the new total is above the ceiling. The new record is `Apply` of the old, and consistency is kept. |
| BudgetGuards.BudgetGuard.IncSearch | src/agent/guards.py:17-20 | Counts one search and stops with the search reason exactly when over the ceiling. The new record is `Apply` of the old, and consistency is kept. |
| BudgetGuards.BudgetGuard.Fetch | src/agent/guards.py:22-25 | Counts one fetch and stops with the fetch reason exactly when over the ceiling. The new record is `Apply` of the old, and consistency is kept. |
| BudgetGuards.BudgetGuard.IsStopped | src/agent/guards.py:31-32 | Reports the ledger's stopped flag and changes nothing. |
| Graph.FixedSuccessor | src/agent/graph.py:22-27 | Each fixed edge brings the run one step closer to decide and never leads to the planner. |
| Graph.Route | src/agent/graph.py:29-32 | The run ends exactly when the decision is to stop; otherwise it goes back to research. |
| Graph.Successor | src/agent/graph.py:22-32 | No edge leads back to the planner. The run ends only after decide, with a decision to stop. |
| Graph.Walk | src/agent/graph.py:22-32 | The stages executed from a stage on, following `Graph.Successor`. Its properties are stated by `Graph.WalkAvoidsPlanner`, `Graph.WalkOfPasses` and `Graph.WalkFollowsEdges`. |
| Graph.Run | src/agent/graph.py:22-32 | A whole run from START. Its properties are stated by `Graph.PlannerRunsOnce`, `Graph.RunOfPasses` and `Graph.RunFollowsEdges`. |
| Graph.SuccessorIsEdge | src/agent/graph.py:22-32 | The step function takes exactly the graph's edges. It takes decide's back-edge only on a decision to continue. |
| Graph.Passes | src/agent/graph.py:23-30 | k passes of the loop are 5k stages. |
| Graph.RouteOnlyReadsDecision | src/agent/graph.py:29-30 | Two states are routed alike exactly when their decisions agree. |
| Graph.WalkAvoidsPlanner | src/agent/graph.py:22-32 | A walk that starts after the planner never reaches it. |
| Graph.PlannerRunsOnce | src/agent/graph.py:22-32 | A run starts with the planner and never executes it again. |
| Graph.ChainToDecide | src/agent/graph.py:23-27 | From research the run passes draft, critique and revise, then reaches decide. |
| Graph.WalkOfPasses | src/agent/graph.py:23-32 | From research, j decisions to continue followed by a stop give j + 1 full passes, and later states are never read. |
| Graph.RunOfPasses | src/agent/graph.py:22-32 | A run whose first stop is the (j+1)-th decision executes the planner and then j + 1 passes: 1 + 5(j + 1) stages. |
| Graph.WalkFollowsEdges | src/agent/graph.py:22-32 | Every walk follows the graph's edges and ends at decide. |
| Graph.RunFollowsEdges | src/agent/graph.py:22-32 | A run starts at the planner, follows the edges and ends at decide. |

## Left out

- **Environment-read ceilings and settings.** `env_int`, `env_float` and the ceilings and citation setting read from the environment become parameters. `BudgetGuards.DefaultLimits` holds the defaults 6, 6 and 24000. A malformed variable falls back to the default; that fallback is not modelled.
- **`None` text.** `None` passed for a text (`text or ""`) is not modelled, because strings here are never null. The empty string stands for it.
- **Unicode digits.** `\d` and `isdigit` are read as ASCII `0`–`9`. Python also accepts other Unicode decimal digits.
- Text.SplitLines: splits only at `"\n"`. Python's `splitlines` also splits at `\r`, `\r\n`, `\v`, `\f`, `\x1c`–`\x1e`, `\x85`, `\u2028` and `\u2029`.
- Text.RoughTokenEstimation: computes `ceil(len/4)` on integers. The source divides in floating point, which gives the same result for any realistic length.
- **Counter width.** Counters are unbounded integers, as Python's are.
- **LangGraph.** Building the graph, `compile`, `invoke` and the recursion limit are library internals. `Graph.Walk` instead ends a run that runs out of given states at decide.
- **Stage bodies.** What each stage does is not part of this model: planning, searching, fetching, drafting, critiquing, revising, and the rule by which decide picks `stop` or `continue`. The decisions are inputs to `Graph.Run`. Prompts, the model client, the web and search clients, the CLI and the UI are also left out.
- **`is_stopped` coercion.** `bool(...)` in `is_stopped` is the identity here, because the flag is already a boolean.

## Findings

| source | as written | input that shows it | evidently intended | confidence | as-written member | corrected member |
|---|---|---|---|---|---|---|
| src/agent/utils.py:34 | `any(ch.isdigit for ch in line)` tests the bound method `ch.isdigit`, which is always truthy, so any non-empty line passes the digit test | the draft `"[S1]\nNo numbers here."` with research on and citations required scores 6 and reports `No numbers here.` | only lines holding a digit (`ch.isdigit()`) are reported, so that draft scores 9 | high, not executed | Text.AsWrittenFlagsDigitFreeLine | Text.IntendedFlaggedLinesHaveDigits |
