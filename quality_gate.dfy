/** The quality gate (src/agent/guards.py, `QualityGate.check`): a
    first-match decision table that scores a draft 3, 5, 6, 8 or 9 and
    explains the score. The digit test of the line scan is a parameter:
    `AsWritten` is the gate the source runs, `Intended` the corrected one. */
module QualityGates {
  import opened Text

  /** The `(score, critique_text)` pair `check` returns. */
  datatype GateResult = GateResult(score: int, feedback: string)

  const VerificationPresent := "Good: Includes verification guidance while research is disabled."
  const VerificationMissing :=
    "Research is disabled / blocked. Add uncertainity and clear verification guidance using the term- verify"
  const MarkersMissing :=
    "Missing citation marks. Add inline markers like [S#] representing a source while claiming a fact."
  const UncitedClaimsHeader := "Some numeric/dated claims lack citations. Add [S#] on the same line:\n"
  const NoMajorIssues := "No major issues: citations present and numeric claims appear supported."

  /** The number of flagged lines the feedback shows: `bad_lines[:6]`. */
  const SampleSize := 6

  function Min(a: int, b: int): int {
    if a <= b then a else b
  }

  /** Each line prefixed with `"- "`. */
  function Bullets(lines: seq<string>): (r: seq<string>)
    ensures |r| == |lines| && forall k :: 0 <= k < |lines| ==> r[k] == "- " + lines[k]
  {
    seq(|lines|, k requires 0 <= k < |lines| => "- " + lines[k])
  }

  /** `"\n".join(f"- {l}" for l in bad_lines[:6])`. */
  function Sample(bad: seq<string>): string {
    Join(Bullets(bad[..Min(|bad|, SampleSize)]), "\n")
  }

  /** The draft must cite its sources: research is on and citations are
      required. */
  predicate CitationDuty(researchEnabled: bool, requireCitations: bool) {
    researchEnabled && requireCitations
  }

  /** `QualityGate.check`, with the `REQUIRE_CITATIONS_WHEN_RESEARCH_ENABLED`
      setting passed in as `requireCitations`. */
  function Check(researchEnabled: bool, requireCitations: bool, text: string, test: DigitTest): (r: GateResult)
    ensures r.score in {3, 5, 6, 8, 9}
    ensures 0 <= r.score <= 10
  {
    if !CitationDuty(researchEnabled, requireCitations) then
      if Contains(text, "verify") || Contains(text, "Verify") then GateResult(8, VerificationPresent)
      else GateResult(5, VerificationMissing)
    else if !HasCitationMarkers(text) then
      GateResult(3, MarkersMissing)
    else
      var bad := FlaggedLines(text, test);
      if bad != [] then GateResult(6, UncitedClaimsHeader + Sample(bad))
      else GateResult(9, NoMajorIssues)
  }

  /** Without a citation duty only the word "verify" matters: 8 when the text
      holds `verify` or `Verify`, 5 otherwise, whatever markers or lines the
      text has. */
  lemma CheckWithoutCitationDuty(researchEnabled: bool, requireCitations: bool, text: string, test: DigitTest)
    requires !CitationDuty(researchEnabled, requireCitations)
    ensures var r := Check(researchEnabled, requireCitations, text, test);
      (r.score == 8 <==> Contains(text, "verify") || Contains(text, "Verify")) &&
      (r.score == 5 <==> !(Contains(text, "verify") || Contains(text, "Verify"))) &&
      r == Check(researchEnabled, requireCitations, text, if test == AsWritten then Intended else AsWritten)
  {
  }

  /** With a citation duty the rules apply in order: 3 without a marker
      `[S<digits>]`, else 6 when some line is flagged, else 9. */
  lemma CheckWithCitationDuty(text: string, test: DigitTest)
    ensures var r := Check(true, true, text, test);
      (r.score == 3 <==> !HasCitationMarkers(text)) &&
      (r.score == 6 <==> HasCitationMarkers(text) && FlaggedLines(text, test) != []) &&
      (r.score == 9 <==> HasCitationMarkers(text) && FlaggedLines(text, test) == [])
  {
  }

  /** The scan reports nothing exactly when no line of the text is reported. */
  lemma NoFlaggedLinesIff(text: string, test: DigitTest)
    ensures FlaggedLines(text, test) == []
        <==> forall k :: 0 <= k < |SplitLines(text)| ==> !IsReported(SplitLines(text)[k], test)
  {
    var lines := SplitLines(text);
    var bad := FlaggedLines(text, test);
    if bad != [] {
      FlaggedMembership(lines, test, bad[0]);
    }
    forall k | 0 <= k < |lines| && IsReported(lines[k], test)
      ensures bad != []
    {
      FlaggedMembership(lines, test, Strip(lines[k]));
    }
  }

  /** A line is cited or exempt: blank, a heading, or holding `[S`. */
  predicate CitedOrExempt(line: string) {
    Strip(line) == [] || StartsWith(Strip(line), "#") || Contains(line, "[S")
  }

  /** As written, the gate passes a draft with 9 exactly when citations are
      due, the draft holds a marker, and every line is blank, a heading or
      holds `[S`; digits play no part. */
  lemma CheckPassesIff(text: string)
    ensures Check(true, true, text, AsWritten).score == 9
        <==> HasCitationMarkers(text)
             && forall k :: 0 <= k < |SplitLines(text)| ==> CitedOrExempt(SplitLines(text)[k])
  {
    var lines := SplitLines(text);
    NoFlaggedLinesIff(text, AsWritten);
    forall k | 0 <= k < |lines|
      ensures IsReported(lines[k], AsWritten) <==> !CitedOrExempt(lines[k])
    {
      AsWrittenReportedIff(lines[k]);
    }
  }

  /** With the intended test, a pass means every line is cited, exempt, or
      free of digits. */
  lemma CheckIntendedPassesIff(text: string)
    ensures Check(true, true, text, Intended).score == 9
        <==> HasCitationMarkers(text)
             && forall k :: 0 <= k < |SplitLines(text)| ==>
                  CitedOrExempt(SplitLines(text)[k]) || !HasDigit(SplitLines(text)[k])
  {
    var lines := SplitLines(text);
    NoFlaggedLinesIff(text, Intended);
    forall k | 0 <= k < |lines|
      ensures IsReported(lines[k], Intended) <==> !CitedOrExempt(lines[k]) && HasDigit(lines[k])
    {
      var line := lines[k];
      if HasDigit(line) {
        StripKeepsDigit(line);
        assert Strip(line) != [];
      }
    }
  }

  /** Joined bullets split back into the bullets. */
  lemma SampleLines(bad: seq<string>)
    requires forall k :: 0 <= k < |bad| ==> '\n' !in bad[k]
    ensures bad != [] ==> SplitOnNewline(Sample(bad)) == Bullets(bad[..Min(|bad|, SampleSize)])
  {
    var shown := bad[..Min(|bad|, SampleSize)];
    var bullets := Bullets(shown);
    forall k | 0 <= k < |bullets|
      ensures '\n' !in bullets[k]
    {
      assert bullets[k] == "- " + shown[k];
    }
    if bad != [] {
      SplitOnNewlineJoin(bullets);
    }
  }

  /** A score of 6 comes with feedback that is the header followed by the
      first six flagged lines (or all of them, if fewer), one per line, each
      prefixed with "- ". */
  lemma CheckFlagsListFirstSix(text: string, test: DigitTest)
    requires Check(true, true, text, test).score == 6
    ensures var r := Check(true, true, text, test);
      var bad := FlaggedLines(text, test);
      var listed := SplitOnNewline(r.feedback[|UncitedClaimsHeader|..]);
      StartsWith(r.feedback, UncitedClaimsHeader) &&
      |listed| == Min(|bad|, SampleSize) && 1 <= |listed| <= SampleSize &&
      forall k :: 0 <= k < |listed| ==> listed[k] == "- " + bad[k]
  {
    var bad := FlaggedLines(text, test);
    forall k | 0 <= k < |bad|
      ensures '\n' !in bad[k]
    {
      FlaggedLinesShape(text, test, bad[k]);
    }
    SampleLines(bad);
    var r := Check(true, true, text, test);
    assert r.feedback == UncitedClaimsHeader + Sample(bad);
    assert r.feedback[|UncitedClaimsHeader|..] == Sample(bad);
  }

  // -------------------------------------------------------------- examples

  /** Research off, a text that asks the reader to verify: 8, with the
      verification-present message. */
  lemma ExampleVerifyWithoutResearch()
    ensures Check(false, true, "This is uncertain, please verify with a professional.", AsWritten)
         == GateResult(8, VerificationPresent)
  {
    var text := "This is uncertain, please verify with a professional.";
    var before, after := "This is uncertain, please ", " with a professional.";
    assert text == before + "verify" + after;
    assert text[|before|..|before| + 6] == "verify";
    assert OccursAt(text, "verify", |before|);
  }

  /** A text without a `[` has no marker. */
  lemma NoBracketNoMarker(text: string)
    requires '[' !in text
    ensures !HasCitationMarkers(text)
  {
    forall i: nat | i < |text|
      ensures !MarkerAt(text, i)
    {
      assert text[i] in text;
    }
  }

  /** Research on, a text without markers: 3, with the missing-markers
      message. */
  lemma ExampleNoMarkers()
    ensures Check(true, true, "The sky is blue.", AsWritten) == GateResult(3, MarkersMissing)
  {
    NoBracketNoMarker("The sky is blue.");
  }

  /** A two-line draft whose first line holds a marker: the gate's verdict
      rests on the second line alone. */
  lemma GateOnCitedFirstLine(first: string, second: string, i: nat, test: DigitTest)
    requires '\n' !in first && '\n' !in second && second != []
    requires MarkerAt(first, i)
    ensures IsReported(second, test) ==>
      Check(true, true, first + "\n" + second, test)
        == GateResult(6, UncitedClaimsHeader + "- " + Strip(second))
    ensures !IsReported(second, test) ==>
      Check(true, true, first + "\n" + second, test) == GateResult(9, NoMajorIssues)
  {
    TwoLineScan(first, second, test);
    MarkerInFirstLine(first, second, i);
    assert i < |first| && MarkerAt(first, i);
    MarkerContainsOpening(first);
    assert !IsReported(first, test);
    assert Join(["- " + Strip(second)], "\n") == "- " + Strip(second);
  }

  /** A marker inside the first line of a text is a marker of the text. */
  lemma MarkerInFirstLine(first: string, second: string, i: nat)
    requires MarkerAt(first, i)
    ensures HasCitationMarkers(first + "\n" + second)
  {
    var text := first + "\n" + second;
    var e := DigitRunEnd(first, i + 2);
    assert forall m :: i + 2 <= m <= e ==> text[m] == first[m];
    assert MarkerSpan(text, i, e);
    HasCitationMarkersIff(text);
  }

  const CitedClaim := "In 2020 revenue grew 10%. [S1] confirms this."
  const UncitedClaim := "In 2021 revenue grew again."

  lemma CitedClaimFacts()
    ensures '\n' !in CitedClaim && Contains(CitedClaim, "[S") && MarkerAt(CitedClaim, 26)
  {
    CitedClaimHasMarker();
    assert OccursAt(CitedClaim, "[S", 26);
    CitedClaimIsOneLine();
  }

  lemma CitedClaimHasMarker()
    ensures |CitedClaim| > 29 && CitedClaim[26..30] == "[S1]" && MarkerAt(CitedClaim, 26)
  {
    var before, after := "In 2020 revenue grew 10%. ", " confirms this.";
    assert CitedClaim == before + "[S1]" + after;
    assert DigitRunEnd(CitedClaim, 29) == 29;
  }

  lemma CitedClaimIsOneLine()
    ensures '\n' !in CitedClaim
  {
    var before, after := "In 2020 revenue grew 10%. ", " confirms this.";
    assert CitedClaim == before + "[S1]" + after;
    assert '\n' !in before && '\n' !in "[S1]" && '\n' !in after;
  }

  lemma UncitedClaimFacts()
    ensures '\n' !in UncitedClaim && !Contains(UncitedClaim, "[S")
    ensures Strip(UncitedClaim) == UncitedClaim && !StartsWith(UncitedClaim, "#")
  {
    NotContainsFirstChar(UncitedClaim, "[S");
  }

  /** Research on, a cited line followed by an uncited claim: 6, and the
      feedback lists the second line. */
  lemma ExampleUncitedSecondLine()
    ensures var r := Check(true, true, CitedClaim + "\n" + UncitedClaim, AsWritten);
      r.score == 6 && r.feedback == UncitedClaimsHeader + "- " + UncitedClaim
  {
    CitedClaimFacts();
    UncitedClaimFacts();
    GateOnCitedFirstLine(CitedClaim, UncitedClaim, 26, AsWritten);
  }

  const MarkerOnly := "[S1]"
  const DigitFree := "No numbers here."

  lemma MarkerOnlyFacts()
    ensures '\n' !in MarkerOnly && Contains(MarkerOnly, "[S") && MarkerAt(MarkerOnly, 0)
  {
    assert OccursAt(MarkerOnly, "[S", 0);
    assert DigitRunEnd(MarkerOnly, 3) == 3;
  }

  lemma DigitFreeFacts()
    ensures '\n' !in DigitFree && !Contains(DigitFree, "[S")
    ensures Strip(DigitFree) == DigitFree && !StartsWith(DigitFree, "#")
  {
    NotContainsFirstChar(DigitFree, "[S");
  }

  lemma DigitFreeHasNoDigit()
    ensures !HasDigit(DigitFree)
  {
    forall k | 0 <= k < |DigitFree|
      ensures !IsDigit(DigitFree[k])
    {
      assert DigitFree[k] in "No numbershe.";
    }
  }

  /** As written, a cited draft whose other line states no number at all is
      still scored 6; the intended test passes it with 9. */
  lemma AsWrittenGateFlagsDigitFreeLine()
    ensures Check(true, true, MarkerOnly + "\n" + DigitFree, AsWritten).score == 6
    ensures Check(true, true, MarkerOnly + "\n" + DigitFree, Intended).score == 9
  {
    MarkerOnlyFacts();
    DigitFreeFacts();
    DigitFreeHasNoDigit();
    GateOnCitedFirstLine(MarkerOnly, DigitFree, 0, AsWritten);
    GateOnCitedFirstLine(MarkerOnly, DigitFree, 0, Intended);
  }
}
