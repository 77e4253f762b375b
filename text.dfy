/** Text helpers of the research agent (src/agent/utils.py): the rough token
    estimate, the citation-marker search, and the line scan that looks for
    claim lines without an inline citation. Python's `str` operations that
    these helpers rely on (`in`, `strip`, `startswith`, `splitlines`,
    `join`) are defined here on `seq<char>`. */
module Text {

  // ---------------------------------------------------------------- characters

  /** An ASCII decimal digit: the model's reading of `\d` and `str.isdigit`. */
  predicate IsDigit(c: char) {
    '0' <= c <= '9'
  }

  /** Python's `str.isspace`, the set of characters `str.strip()` removes. */
  predicate IsSpace(c: char) {
    ('\U{9}' <= c <= '\U{D}') || ('\U{1C}' <= c <= ' ') || c == '\U{85}' || c == '\U{A0}'
    || c == '\U{1680}' || ('\U{2000}' <= c <= '\U{200A}') || c == '\U{2028}' || c == '\U{2029}'
    || c == '\U{202F}' || c == '\U{205F}' || c == '\U{3000}'
  }

  /** Some character of `s` is a digit. */
  predicate HasDigit(s: string) {
    exists k | 0 <= k < |s| :: IsDigit(s[k])
  }

  /** The decimal digits of `n`, as Python's `str(n)` writes a non-negative int. */
  function DecimalString(n: nat): (r: string)
    ensures r != [] && forall k :: 0 <= k < |r| ==> IsDigit(r[k])
  {
    var last := ('0' as int + n % 10) as char;
    if n < 10 then [last] else DecimalString(n / 10) + [last]
  }

  /** The number a string of decimal digits denotes, most significant first. */
  function DigitsValue(s: string): int {
    if s == [] then 0 else 10 * DigitsValue(s[..|s| - 1]) + (s[|s| - 1] as int - '0' as int)
  }

  /** `DecimalString(n)` spells `n` with no leading zero, as `str(n)` does. */
  lemma {:induction false} DecimalStringValue(n: nat)
    ensures DigitsValue(DecimalString(n)) == n
    ensures |DecimalString(n)| > 1 ==> DecimalString(n)[0] != '0'
  {
    var r := DecimalString(n);
    if n >= 10 {
      DecimalStringValue(n / 10);
      var high := DecimalString(n / 10);
      assert r[..|r| - 1] == high;
      assert r[0] == high[0];
    }
  }

  // ------------------------------------------------------ token estimation

  /** `rough_token_estimation`: four characters per token, rounded up, and an
      empty text costs nothing. */
  function RoughTokenEstimation(text: string): (n: nat)
    ensures text == [] ==> n == 0
    ensures text != [] ==> 1 <= n && 4 * (n - 1) < |text| <= 4 * n
  {
    if text == [] then 0 else Max(1, (|text| + 3) / 4)
  }

  /** Python's `max` on two integers. */
  function Max(a: int, b: int): (m: int)
    ensures m >= a && m >= b && (m == a || m == b)
  {
    if a >= b then a else b
  }

  /** A longer text never costs fewer tokens. */
  lemma RoughTokenEstimationMonotone(a: string, b: string)
    requires |a| <= |b|
    ensures RoughTokenEstimation(a) <= RoughTokenEstimation(b)
  {
  }

  // ------------------------------------------------------ substring search

  /** `p` occurs in `s` starting at index `i`. */
  predicate OccursAt(s: string, p: string, i: int) {
    0 <= i && i + |p| <= |s| && s[i..i + |p|] == p
  }

  /** Python's `p in s` on strings. */
  predicate Contains(s: string, p: string) {
    exists i | 0 <= i <= |s| - |p| :: OccursAt(s, p, i)
  }

  /** Python's `s.startswith(p)`. */
  predicate StartsWith(s: string, p: string) {
    |p| <= |s| && s[..|p|] == p
  }

  /** A string without the character `c` contains no pattern that begins
      with `c`. */
  lemma {:induction false} NotContainsFirstChar(s: string, p: string)
    requires p != [] && p[0] !in s
    ensures !Contains(s, p)
  {
    forall i | 0 <= i <= |s| - |p|
      ensures !OccursAt(s, p, i)
    {
      assert s[i] in s;
      assert s[i..i + |p|][0] == s[i] != p[0];
    }
  }

  // ------------------------------------------------------ citation markers

  /** The greedy `\d+` started at index `k`: the first index at or after `k`
      that does not hold a digit. */
  function DigitRunEnd(s: string, k: nat): (e: nat)
    requires k <= |s|
    ensures k <= e <= |s|
    ensures forall m :: k <= m < e ==> IsDigit(s[m])
    ensures e < |s| ==> !IsDigit(s[e])
    decreases |s| - k
  {
    if k < |s| && IsDigit(s[k]) then DigitRunEnd(s, k + 1) else k
  }

  /** A match of the pattern `\[S\d+\]` starts at index `i`. */
  predicate MarkerAt(s: string, i: nat) {
    i + 2 < |s| && s[i] == '[' && s[i + 1] == 'S' &&
    var e := DigitRunEnd(s, i + 2);
    i + 2 < e < |s| && s[e] == ']'
  }

  /** `has_citation_markers`: `re.search(r"\[S\d+\]", text)` finds a match. */
  predicate HasCitationMarkers(text: string) {
    exists i: nat | i < |text| :: MarkerAt(text, i)
  }

  /** `s[i..j + 1]` is `[S`, one or more digits, and `]`. */
  ghost predicate MarkerSpan(s: string, i: int, j: int) {
    0 <= i && i + 2 < j < |s| && s[i] == '[' && s[i + 1] == 'S' && s[j] == ']' &&
    forall k :: i + 2 <= k < j ==> IsDigit(s[k])
  }

  /** The search succeeds exactly when the text holds a marker `[S<digits>]`
      somewhere; so the empty text has none. */
  lemma HasCitationMarkersIff(text: string)
    ensures HasCitationMarkers(text) <==> exists i, j :: MarkerSpan(text, i, j)
    ensures text == [] ==> !HasCitationMarkers(text)
  {
    if HasCitationMarkers(text) {
      var i: nat :| i < |text| && MarkerAt(text, i);
      assert MarkerSpan(text, i, DigitRunEnd(text, i + 2));
    }
    if exists i, j :: MarkerSpan(text, i, j) {
      var i, j :| MarkerSpan(text, i, j);
      assert !IsDigit(text[j]);
      assert MarkerAt(text, i);
    }
  }

  /** A text with a well-formed marker also holds the opening `[S`. */
  lemma MarkerContainsOpening(text: string)
    requires HasCitationMarkers(text)
    ensures Contains(text, "[S")
  {
    var i: nat :| i < |text| && MarkerAt(text, i);
    assert text[i..i + 2] == "[S";
    assert OccursAt(text, "[S", i);
  }

  // ------------------------------------------------------------- stripping

  /** `s.lstrip()`. */
  function StripLeft(s: string): string
    decreases |s|
  {
    if s != [] && IsSpace(s[0]) then StripLeft(s[1..]) else s
  }

  /** `lstrip` removes the leading whitespace: what it keeps is a suffix that
      does not start with whitespace, and what it drops is whitespace. */
  lemma {:induction false} StripLeftSpec(s: string)
    ensures |StripLeft(s)| <= |s| && StripLeft(s) == s[|s| - |StripLeft(s)|..]
    ensures forall k :: 0 <= k < |s| - |StripLeft(s)| ==> IsSpace(s[k])
    ensures StripLeft(s) != [] ==> !IsSpace(StripLeft(s)[0])
    decreases |s|
  {
    if s != [] && IsSpace(s[0]) {
      StripLeftSpec(s[1..]);
    }
  }

  /** `s.rstrip()`. */
  function StripRight(s: string): string
    decreases |s|
  {
    if s != [] && IsSpace(s[|s| - 1]) then StripRight(s[..|s| - 1]) else s
  }

  /** `rstrip` removes the trailing whitespace: what it keeps is a prefix that
      does not end with whitespace, and what it drops is whitespace. */
  lemma {:induction false} StripRightSpec(s: string)
    ensures |StripRight(s)| <= |s| && StripRight(s) == s[..|StripRight(s)|]
    ensures forall k :: |StripRight(s)| <= k < |s| ==> IsSpace(s[k])
    ensures StripRight(s) != [] ==> !IsSpace(StripRight(s)[|StripRight(s)| - 1])
    decreases |s|
  {
    if s != [] && IsSpace(s[|s| - 1]) {
      StripRightSpec(s[..|s| - 1]);
    }
  }

  /** `r` is `s` with its leading `i` characters and its trailing characters
      removed, all of them whitespace, and `r` neither starts nor ends with
      whitespace. */
  ghost predicate StrippedAt(s: string, r: string, i: int) {
    0 <= i && i + |r| <= |s| && s[i..i + |r|] == r &&
    (forall k :: 0 <= k < i ==> IsSpace(s[k])) &&
    (forall k :: i + |r| <= k < |s| ==> IsSpace(s[k])) &&
    (r != [] ==> !IsSpace(r[0]) && !IsSpace(r[|r| - 1]))
  }

  /** `s.strip()`. */
  function Strip(s: string): string {
    StripRight(StripLeft(s))
  }

  /** `Strip` removes surrounding whitespace and nothing else. */
  lemma StripSpec(s: string)
    ensures exists i :: StrippedAt(s, Strip(s), i)
  {
    var left := StripLeft(s);
    StripLeftSpec(s);
    StripRightSpec(left);
    assert StrippedAt(s, Strip(s), |s| - |left|);
  }

  /** Stripping leaves nothing exactly when the string is all whitespace. */
  lemma StripEmptyIff(s: string)
    ensures Strip(s) == [] <==> forall k :: 0 <= k < |s| ==> IsSpace(s[k])
  {
    var r := Strip(s);
    StripSpec(s);
    var i :| StrippedAt(s, r, i);
    if r != [] {
      assert s[i] == r[0];
    }
  }

  /** A stripped string is its own strip. */
  lemma StripIdempotent(s: string)
    ensures Strip(Strip(s)) == Strip(s)
  {
    var r := Strip(s);
    StripSpec(s);
    var i :| StrippedAt(s, r, i);
    assert StripLeft(r) == r;
    assert StripRight(r) == r;
  }

  /** Whatever occurs in the stripped string occurs in the string. */
  lemma StripContains(s: string, p: string)
    requires Contains(Strip(s), p)
    ensures Contains(s, p)
  {
    var r := Strip(s);
    StripSpec(s);
    var i :| StrippedAt(s, r, i);
    var j :| 0 <= j <= |r| - |p| && OccursAt(r, p, j);
    forall m | 0 <= m < |p|
      ensures s[i + j + m] == p[m]
    {
      assert r[j + m] == p[m];
      assert s[i..i + |r|][j + m] == s[i + j + m];
    }
    assert s[i + j..i + j + |p|] == p;
    assert OccursAt(s, p, i + j);
  }

  /** Stripping removes whitespace only, so it keeps every digit. */
  lemma StripKeepsDigit(s: string)
    requires HasDigit(s)
    ensures HasDigit(Strip(s))
  {
    var r := Strip(s);
    StripSpec(s);
    var i :| StrippedAt(s, r, i);
    var k :| 0 <= k < |s| && IsDigit(s[k]);
    assert r[k - i] == s[k];
  }

  // --------------------------------------------------------- line splitting

  /** `sep.join(parts)`. */
  function Join(parts: seq<string>, sep: string): string {
    if parts == [] then ""
    else if |parts| == 1 then parts[0]
    else parts[0] + sep + Join(parts[1..], sep)
  }

  /** `s.split("\n")`: the pieces between line breaks, always at least one. */
  function SplitOnNewline(s: string): (pieces: seq<string>)
    ensures |pieces| >= 1
    ensures forall k :: 0 <= k < |pieces| ==> '\n' !in pieces[k]
    decreases |s|
  {
    if s == [] then [[]]
    else
      var rest := SplitOnNewline(s[1..]);
      if s[0] == '\n' then [[]] + rest
      else [[s[0]] + rest[0]] + rest[1..]
  }

  /** `s.splitlines()` for text whose line breaks are `\n`: a final line
      break does not open an extra empty line, and the empty text has no
      lines. */
  function SplitLines(s: string): (lines: seq<string>)
    ensures s == [] <==> lines == []
    ensures forall k :: 0 <= k < |lines| ==> '\n' !in lines[k]
  {
    if s == [] then []
    else if s[|s| - 1] == '\n' then SplitOnNewline(s[..|s| - 1])
    else SplitOnNewline(s)
  }

  /** Joining the pieces with line breaks gives back the text. */
  lemma {:induction false} JoinSplitOnNewline(s: string)
    ensures Join(SplitOnNewline(s), "\n") == s
    decreases |s|
  {
    if s != [] {
      var rest := SplitOnNewline(s[1..]);
      JoinSplitOnNewline(s[1..]);
      if s[0] == '\n' {
        assert ([[]] + rest)[1..] == rest;
        assert s == "\n" + s[1..];
      } else if |rest| == 1 {
        assert s == [s[0]] + s[1..];
      } else {
        var pieces := [[s[0]] + rest[0]] + rest[1..];
        assert pieces[1..] == rest[1..];
        assert s == [s[0]] + s[1..];
      }
    }
  }

  /** `splitlines` loses no text: its lines joined with line breaks, plus the
      final line break if there was one, are the text. */
  lemma SplitLinesJoin(s: string)
    requires s != []
    ensures Join(SplitLines(s), "\n") + (if s[|s| - 1] == '\n' then "\n" else "") == s
  {
    if s[|s| - 1] == '\n' {
      JoinSplitOnNewline(s[..|s| - 1]);
      assert s == s[..|s| - 1] + "\n";
    } else {
      JoinSplitOnNewline(s);
    }
  }

  /** A piece without line breaks is split into itself. */
  lemma {:induction false} SplitOnNewlineNoBreak(x: string)
    requires '\n' !in x
    ensures SplitOnNewline(x) == [x]
    decreases |x|
  {
    if x != [] {
      assert x == [x[0]] + x[1..];
      SplitOnNewlineNoBreak(x[1..]);
      assert x == [x[0]] + x[1..];
    }
  }

  /** Splitting `x + "\n" + y` cuts off `x` as the first piece. */
  lemma {:induction false} SplitOnNewlineFirst(x: string, y: string)
    requires '\n' !in x
    ensures SplitOnNewline(x + "\n" + y) == [x] + SplitOnNewline(y)
    decreases |x|
  {
    var s := x + "\n" + y;
    if x == [] {
      assert s[1..] == y;
    } else {
      assert x == [x[0]] + x[1..];
      SplitOnNewlineFirst(x[1..], y);
      assert s[1..] == x[1..] + "\n" + y;
      assert x == [x[0]] + x[1..];
    }
  }

  /** `s.split("\n")` undoes `"\n".join` of pieces without line breaks. */
  lemma {:induction false} SplitOnNewlineJoin(parts: seq<string>)
    requires parts != []
    requires forall k :: 0 <= k < |parts| ==> '\n' !in parts[k]
    ensures SplitOnNewline(Join(parts, "\n")) == parts
    decreases |parts|
  {
    if |parts| == 1 {
      SplitOnNewlineNoBreak(parts[0]);
    } else {
      SplitOnNewlineJoin(parts[1..]);
      SplitOnNewlineFirst(parts[0], Join(parts[1..], "\n"));
      assert [parts[0]] + parts[1..] == parts;
    }
  }

  /** `sep.join(parts)` ends with the last part. */
  lemma {:induction false} JoinEndsWithLast(parts: seq<string>, sep: string)
    requires parts != []
    ensures |parts[|parts| - 1]| <= |Join(parts, sep)|
    ensures Join(parts, sep)[|Join(parts, sep)| - |parts[|parts| - 1]|..] == parts[|parts| - 1]
    decreases |parts|
  {
    if |parts| > 1 {
      JoinEndsWithLast(parts[1..], sep);
      var tail := Join(parts[1..], sep);
      var whole := parts[0] + sep + tail;
      assert whole[|whole| - |tail|..] == tail;
    }
  }

  /** `splitlines` undoes `"\n".join` of lines without line breaks whose last
      line is not empty. */
  lemma JoinThenSplitLines(lines: seq<string>)
    requires lines != [] && lines[|lines| - 1] != []
    requires forall k :: 0 <= k < |lines| ==> '\n' !in lines[k]
    ensures SplitLines(Join(lines, "\n")) == lines
  {
    var s := Join(lines, "\n");
    var last := lines[|lines| - 1];
    JoinEndsWithLast(lines, "\n");
    assert s[|s| - 1] == s[|s| - |last|..][|last| - 1] == last[|last| - 1];
    SplitOnNewlineJoin(lines);
  }

  // --------------------------------------------------- uncited claim lines

  /** Which digit test the line scan applies. */
  datatype DigitTest =
    | AsWritten  // `any(ch.isdigit for ch in line)` at utils.py:34, which tests the bound method
    | Intended   // `any(ch.isdigit() for ch in line)`, the test the docstring describes

  /** The digit test of the line scan. As written, the generator yields the
      bound method `ch.isdigit`, which is always truthy, so `any` holds exactly
      for a non-empty line. */
  predicate PassesDigitTest(line: string, test: DigitTest) {
    match test
    case AsWritten => line != []
    case Intended => HasDigit(line)
  }

  /** The line is appended (stripped) to the list `bad`: it passes the digit
      test, holds no `[S`, and is not a heading. */
  predicate IsCandidate(line: string, test: DigitTest) {
    PassesDigitTest(line, test) && !Contains(line, "[S") && !StartsWith(Strip(line), "#")
  }

  /** The line is reported: a candidate whose stripped form is not empty. */
  predicate IsReported(line: string, test: DigitTest) {
    IsCandidate(line, test) && Strip(line) != []
  }

  /** What one line adds to `bad`. */
  function Pick(line: string, test: DigitTest): seq<string> {
    if IsCandidate(line, test) then [Strip(line)] else []
  }

  /** The list `bad` after the loop over `lines`. */
  function Candidates(lines: seq<string>, test: DigitTest): seq<string> {
    if lines == [] then []
    else Candidates(lines[..|lines| - 1], test) + Pick(lines[|lines| - 1], test)
  }

  /** `[b for b in bad if b]`. */
  function NonEmpty(xs: seq<string>): seq<string> {
    if xs == [] then []
    else
      var last := xs[|xs| - 1];
      NonEmpty(xs[..|xs| - 1]) + if last != [] then [last] else []
  }

  /** What `find_numeric_claim_lines_without_cites(text)` returns. */
  function FlaggedLines(text: string, test: DigitTest): seq<string> {
    NonEmpty(Candidates(SplitLines(text), test))
  }

  /** `find_numeric_claim_lines_without_cites`: a pass over the lines that
      collects the stripped candidate lines into `bad`, then the comprehension
      that drops the empty ones. */
  method FindNumericClaimLinesWithoutCites(text: string, test: DigitTest) returns (flagged: seq<string>)
    ensures flagged == FlaggedLines(text, test)
  {
    var lines := SplitLines(text);
    var bad: seq<string> := [];
    for i := 0 to |lines|
      invariant bad == Candidates(lines[..i], test)
    {
      var line := lines[i];
      assert lines[..i + 1] == lines[..i] + [line];
      CandidatesSnoc(lines[..i], line, test);
      if PassesDigitTest(line, test) && !Contains(line, "[S") {
        if StartsWith(Strip(line), "#") {
          continue;
        }
        bad := bad + [Strip(line)];
      }
    }
    assert lines[..|lines|] == lines;
    flagged := NonEmpty(bad);
  }

  lemma CandidatesSnoc(lines: seq<string>, line: string, test: DigitTest)
    ensures Candidates(lines + [line], test) == Candidates(lines, test) + Pick(line, test)
  {
    assert (lines + [line])[..|lines|] == lines;
  }

  lemma NonEmptySnoc(xs: seq<string>, y: string)
    ensures NonEmpty(xs + [y]) == NonEmpty(xs) + if y != [] then [y] else []
  {
    assert (xs + [y])[..|xs|] == xs;
  }

  /** Appending one line to the scan appends that line, stripped, exactly when
      it is reported. */
  lemma FlaggedStep(lines: seq<string>, line: string, test: DigitTest)
    ensures NonEmpty(Candidates(lines + [line], test))
         == NonEmpty(Candidates(lines, test)) + if IsReported(line, test) then [Strip(line)] else []
  {
    CandidatesSnoc(lines, line, test);
    var c := Candidates(lines, test);
    if IsCandidate(line, test) {
      assert Pick(line, test) == [Strip(line)];
      NonEmptySnoc(c, Strip(line));
    } else {
      assert Pick(line, test) == [];
      assert c + [] == c;
    }
  }

  /** A string is in the scan's result exactly when some line is reported and
      that line, stripped, is the string. */
  lemma {:induction false} FlaggedMembership(lines: seq<string>, test: DigitTest, x: string)
    ensures x in NonEmpty(Candidates(lines, test))
        <==> exists k :: 0 <= k < |lines| && IsReported(lines[k], test) && Strip(lines[k]) == x
    decreases |lines|
  {
    if lines != [] {
      var init, last := lines[..|lines| - 1], lines[|lines| - 1];
      assert lines == init + [last];
      FlaggedStep(init, last, test);
      FlaggedMembership(init, test, x);
      var rest := NonEmpty(Candidates(init, test));
      var added := if IsReported(last, test) then [Strip(last)] else [];
      assert NonEmpty(Candidates(lines, test)) == rest + added;
      assert x in rest + added <==> x in rest || x in added;
      if exists k :: 0 <= k < |lines| && IsReported(lines[k], test) && Strip(lines[k]) == x {
        var k :| 0 <= k < |lines| && IsReported(lines[k], test) && Strip(lines[k]) == x;
        if k < |init| {
          assert init[k] == lines[k];
        }
      }
      if exists k :: 0 <= k < |init| && IsReported(init[k], test) && Strip(init[k]) == x {
        var k :| 0 <= k < |init| && IsReported(init[k], test) && Strip(init[k]) == x;
        assert lines[k] == init[k];
      }
    }
  }

  /** Every reported line is non-empty, already stripped, free of line
      breaks, not a heading, and holds no `[S`. */
  lemma FlaggedLinesShape(text: string, test: DigitTest, x: string)
    requires x in FlaggedLines(text, test)
    ensures x != [] && Strip(x) == x && '\n' !in x
    ensures !StartsWith(x, "#") && !Contains(x, "[S")
  {
    var lines := SplitLines(text);
    FlaggedMembership(lines, test, x);
    var k :| 0 <= k < |lines| && IsReported(lines[k], test) && Strip(lines[k]) == x;
    StripIdempotent(lines[k]);
    StripSpec(lines[k]);
    var i :| StrippedAt(lines[k], x, i);
    forall j | 0 <= j < |x|
      ensures x[j] != '\n'
    {
      assert x[j] == lines[k][i + j];
      assert lines[k][i + j] in lines[k];
    }
    if Contains(x, "[S") {
      StripContains(lines[k], "[S");
    }
  }

  /** `xs` keeps some of the elements of `ys`, in their order. */
  ghost predicate IsSubsequence(xs: seq<string>, ys: seq<string>)
    decreases |ys|
  {
    xs == [] ||
    (ys != [] &&
     (IsSubsequence(xs, ys[..|ys| - 1]) ||
      (xs[|xs| - 1] == ys[|ys| - 1] && IsSubsequence(xs[..|xs| - 1], ys[..|ys| - 1]))))
  }

  /** A subsequence is never longer than the sequence it is taken from. */
  lemma {:induction false} SubsequenceLength(xs: seq<string>, ys: seq<string>)
    requires IsSubsequence(xs, ys)
    ensures |xs| <= |ys|
    decreases |ys|
  {
    if xs != [] {
      if IsSubsequence(xs, ys[..|ys| - 1]) {
        SubsequenceLength(xs, ys[..|ys| - 1]);
      } else {
        SubsequenceLength(xs[..|xs| - 1], ys[..|ys| - 1]);
      }
    }
  }

  /** A subsequence stays one when an element is appended to the sequence,
      or to both. */
  lemma SubsequenceSnoc(xs: seq<string>, ys: seq<string>, y: string)
    requires IsSubsequence(xs, ys)
    ensures IsSubsequence(xs, ys + [y])
    ensures IsSubsequence(xs + [y], ys + [y])
  {
    assert (ys + [y])[..|ys|] == ys;
    assert (xs + [y])[..|xs|] == xs;
  }

  /** Every line of `lines`, stripped. */
  function StripAll(lines: seq<string>): (r: seq<string>)
    ensures |r| == |lines| && forall k :: 0 <= k < |lines| ==> r[k] == Strip(lines[k])
  {
    seq(|lines|, k requires 0 <= k < |lines| => Strip(lines[k]))
  }

  /** The reported lines are stripped input lines in their input order. */
  lemma {:induction false} FlaggedInOrder(lines: seq<string>, test: DigitTest)
    ensures IsSubsequence(NonEmpty(Candidates(lines, test)), StripAll(lines))
    decreases |lines|
  {
    if lines != [] {
      var init, last := lines[..|lines| - 1], lines[|lines| - 1];
      assert lines == init + [last];
      FlaggedStep(init, last, test);
      FlaggedInOrder(init, test);
      assert StripAll(lines) == StripAll(init) + [Strip(last)];
      var before := NonEmpty(Candidates(init, test));
      SubsequenceSnoc(before, StripAll(init), Strip(last));
      if !IsReported(last, test) {
        assert before + [] == before;
      }
    }
  }

  /** The scan reports its lines in input order and never more lines than
      the text has. */
  lemma FlaggedLinesOrder(text: string, test: DigitTest)
    ensures IsSubsequence(FlaggedLines(text, test), StripAll(SplitLines(text)))
    ensures |FlaggedLines(text, test)| <= |SplitLines(text)|
  {
    FlaggedInOrder(SplitLines(text), test);
    SubsequenceLength(FlaggedLines(text, test), StripAll(SplitLines(text)));
  }

  /** As written, the digit test never excludes a line: a line is reported
      exactly when it is not blank, holds no `[S`, and is not a heading,
      whether or not it holds a digit. */
  lemma AsWrittenReportedIff(line: string)
    ensures IsReported(line, AsWritten)
        <==> Strip(line) != [] && !Contains(line, "[S") && !StartsWith(Strip(line), "#")
  {
    var r := Strip(line);
    StripSpec(line);
    var i :| StrippedAt(line, r, i);
  }

  /** So as written, the text's reported lines are its stripped lines that are
      not blank, not headings, and hold no `[S`. */
  lemma AsWrittenIgnoresDigits(text: string, x: string)
    ensures x in FlaggedLines(text, AsWritten)
        <==> exists k :: 0 <= k < |SplitLines(text)| && Strip(SplitLines(text)[k]) == x != []
                         && !Contains(SplitLines(text)[k], "[S") && !StartsWith(x, "#")
  {
    var lines := SplitLines(text);
    FlaggedMembership(lines, AsWritten, x);
    forall k | 0 <= k < |lines| {
      AsWrittenReportedIff(lines[k]);
    }
  }

  /** With the intended test every reported line holds a digit. */
  lemma IntendedFlaggedLinesHaveDigits(text: string, x: string)
    requires x in FlaggedLines(text, Intended)
    ensures HasDigit(x)
  {
    var lines := SplitLines(text);
    FlaggedMembership(lines, Intended, x);
    var k :| 0 <= k < |lines| && IsReported(lines[k], Intended) && Strip(lines[k]) == x;
    StripKeepsDigit(lines[k]);
  }

  /** A single line with no digit, no `[` and no surrounding whitespace that
      is not a heading is reported as an uncited numeric claim as written,
      and is not reported by the intended test. */
  lemma AsWrittenFlagsDigitFreeLine(line: string)
    requires line != [] && !IsSpace(line[0]) && !IsSpace(line[|line| - 1])
    requires line[0] != '#' && '\n' !in line && '[' !in line && !HasDigit(line)
    ensures FlaggedLines(line, AsWritten) == [line]
    ensures FlaggedLines(line, Intended) == []
  {
    JoinThenSplitLines([line]);
    assert SplitLines(line) == [line];
    assert Strip(line) == line;
    NotContainsFirstChar(line, "[S");
    FlaggedStep([], line, AsWritten);
    FlaggedStep([], line, Intended);
    assert [] + [line] == [line];
  }

  /** The scan of a two-line text: each line in turn, if it is reported. */
  lemma TwoLineScan(first: string, second: string, test: DigitTest)
    requires '\n' !in first && '\n' !in second && second != []
    ensures SplitLines(first + "\n" + second) == [first, second]
    ensures FlaggedLines(first + "\n" + second, test)
         == (if IsReported(first, test) then [Strip(first)] else [])
            + (if IsReported(second, test) then [Strip(second)] else [])
  {
    assert Join([first, second], "\n") == first + "\n" + second;
    JoinThenSplitLines([first, second]);
    FlaggedStep([], first, test);
    FlaggedStep([first], second, test);
    assert [] + [first] == [first] && [first] + [second] == [first, second];
  }
}
