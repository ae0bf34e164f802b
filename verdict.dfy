/**
 * The verdict parsers: the `**Result:**` marker checks used by the criteria
 * judge (APPROVED) and the work judge (PASS), the `**Score:** a/b` parser, and
 * the heading-section extraction behind `extract_criteria_feedback` and
 * `extract_gaps`. Each regular expression of the source is written out as the
 * string predicate it amounts to.
 */
module Verdict {
  import opened Wrappers
  import opened Text

  const ResultTag := "**Result:**"
  const ScoreTag := "**Score:**"
  const ApprovedWord := "APPROVED"
  const PassWord := "PASS"
  const SuggestedFixes := "## Suggested Fixes\n"
  const GapSummary := "## Gap Summary\n"
  /** The look-ahead that ends a section: a newline followed by a level-two heading. */
  const NextHeading := "\n## "

  // ---------------------------------------------------------------------------
  // Case-insensitive marker matching

  function Lower(c: char): char {
    if 'A' <= c <= 'Z' then (c as int + 32) as char else c
  }

  /**
   * Whether text character `c` matches pattern character `p` under `re.IGNORECASE`
   * on a `str` pattern: ASCII case folding, plus the non-ASCII characters that
   * Python's matcher folds onto an ASCII letter (long s, Kelvin sign, dotted and
   * dotless i).
   */
  predicate FoldEq(c: char, p: char) {
    || Lower(c) == Lower(p)
    || (Lower(p) == 's' && c == '\U{17F}')
    || (Lower(p) == 'k' && c == '\U{212A}')
    || (Lower(p) == 'i' && (c == '\U{130}' || c == '\U{131}'))
  }

  predicate FoldPrefixAt(s: string, i: nat, p: string) {
    i + |p| <= |s| && forall k :: 0 <= k < |p| ==> FoldEq(s[i + k], p[k])
  }

  /** `\*\*Result:\*\*\s*WORD` matches at `i`, with the greedy `\s*` taking all the whitespace. */
  predicate ResultAt(s: string, i: nat, word: string) {
    FoldPrefixAt(s, i, ResultTag) && FoldPrefixAt(s, SkipSpace(s, i + |ResultTag|), word)
  }

  function FindResult(s: string, word: string, from: nat): (r: Option<nat>)
    decreases |s| - from
    ensures r.Some? ==> from <= r.value && ResultAt(s, r.value, word)
    ensures r.None? ==> forall j :: from <= j ==> !ResultAt(s, j, word)
  {
    if from + |ResultTag| > |s| then None
    else if ResultAt(s, from, word) then Some(from)
    else FindResult(s, word, from + 1)
  }

  predicate HasResult(s: string, word: string) {
    FindResult(s, word, 0).Some?
  }

  /** `run_criteria_judge`: the criteria are approved, which is `\*\*Result:\*\*\s*APPROVED` matching somewhere, ignoring case. */
  predicate IsApproved(reply: string): (r: bool)
    ensures r <==> exists i: nat, k: nat :: ResultMatch(reply, i, k, ApprovedWord)
  {
    HasResultIffMatch(reply, ApprovedWord);
    HasResult(reply, ApprovedWord)
  }

  /** `run_judge`: the work passes, which is `\*\*Result:\*\*\s*PASS` matching somewhere, ignoring case. */
  predicate IsPass(reply: string): (r: bool)
    ensures r <==> exists i: nat, k: nat :: ResultMatch(reply, i, k, PassWord)
  {
    HasResultIffMatch(reply, PassWord);
    HasResult(reply, PassWord)
  }

  /**
   * The regular expression's own meaning, with the number `k` of whitespace
   * characters made explicit: the tag at `i`, then `k` whitespace characters,
   * then the word, all compared case-insensitively.
   */
  ghost predicate ResultMatch(s: string, i: nat, k: nat, word: string) {
    && FoldPrefixAt(s, i, ResultTag)
    && i + |ResultTag| + k <= |s|
    && (forall m :: i + |ResultTag| <= m < i + |ResultTag| + k ==> IsSpace(s[m]))
    && FoldPrefixAt(s, i + |ResultTag| + k, word)
  }

  /** A word whose first letter never folds onto whitespace. */
  predicate StartsWithLetter(word: string) {
    word != [] && 'A' <= word[0] <= 'Z'
  }

  lemma FoldedLetterIsNotSpace(c: char, p: char)
    requires 'A' <= p <= 'Z' && FoldEq(c, p)
    ensures !IsSpace(c)
  {
  }

  /** The marker check holds exactly when the regular expression matches somewhere. */
  lemma HasResultIffMatch(s: string, word: string)
    requires StartsWithLetter(word)
    ensures HasResult(s, word) <==> exists i: nat, k: nat :: ResultMatch(s, i, k, word)
  {
    if HasResult(s, word) {
      var i := FindResult(s, word, 0).value;
      var k := SkipSpace(s, i + |ResultTag|) - (i + |ResultTag|);
      assert ResultMatch(s, i, k, word);
    }
    if exists i: nat, k: nat :: ResultMatch(s, i, k, word) {
      var i: nat, k: nat :| ResultMatch(s, i, k, word);
      MatchIsResultAt(s, i, k, word);
    }
  }

  /** A match of the regular expression is a place where the marker check succeeds. */
  lemma MatchIsResultAt(s: string, i: nat, k: nat, word: string)
    requires StartsWithLetter(word) && ResultMatch(s, i, k, word)
    ensures ResultAt(s, i, word)
  {
    var j := i + |ResultTag|;
    FoldedLetterIsNotSpace(s[j + k], word[0]);
    SkipSpaceOf(s, j, k);
  }

  /** Without the bold `**Result:**` tag anywhere, a reply is neither approved nor passing. */
  lemma NoTagNoVerdict(s: string)
    requires forall i: nat :: !FoldPrefixAt(s, i, ResultTag)
    ensures !IsApproved(s) && !IsPass(s)
  {
  }

  /** Case folding leaves characters other than letters alone. */
  lemma FoldEqPunctuation(c: char, p: char)
    requires !('A' <= p <= 'Z') && !('a' <= p <= 'z')
    ensures FoldEq(c, p) ==> c == p
  {
  }

  /** `x` spells `p` up to case folding. */
  predicate FoldsTo(x: string, p: string) {
    |x| == |p| && forall k :: 0 <= k < |x| ==> FoldEq(x[k], p[k])
  }

  /**
   * The marker may stand anywhere in the reply, in any letter case, with any
   * whitespace (none included) between the tag and the word.
   */
  lemma MarkerAnywhere(pre: string, tag: string, gap: string, w: string, post: string, word: string)
    requires FoldsTo(tag, ResultTag) && AllSpace(gap) && FoldsTo(w, word) && StartsWithLetter(word)
    ensures HasResult(pre + tag + gap + w + post, word)
  {
    var s := pre + tag + gap + w + post;
    var i, k := |pre|, |gap|;
    assert s[i..i + |tag|] == tag;
    assert s[i + |tag|..i + |tag| + k] == gap;
    assert s[i + |tag| + k..i + |tag| + k + |w|] == w;
    assert ResultMatch(s, i, k, word);
    HasResultIffMatch(s, word);
  }

  /** The bold tag, one space, the word in lower case: approved. */
  lemma LowerCaseApproval()
    ensures IsApproved("**Result:** approved")
  {
    var s := "**Result:** approved";
    SkipSpaceOf(s, |ResultTag|, 1);
    assert ResultAt(s, 0, ApprovedWord);
  }

  /** The plain, unbolded `Result: APPROVED` is not an approval: the source requires the bold tag. */
  lemma PlainResultIsNotApproval()
    ensures !IsApproved("Result: APPROVED extra notes")
  {
    var s := "Result: APPROVED extra notes";
    assert forall i :: 0 <= i < |s| ==> s[i] != '*';
    forall i: nat | i < |s| ensures !FoldEq(s[i], ResultTag[0]) {
      FoldEqPunctuation(s[i], '*');
    }
  }

  // ---------------------------------------------------------------------------
  // Score

  datatype Score = Score(num: nat, den: nat)

  /** `\*\*Score:\*\*\s*(\d+)/(\d+)` matches at `i` (case-sensitive, digits greedy). */
  predicate ScoreAt(s: string, i: nat) {
    && PrefixAt(s, i, ScoreTag)
    && var a := SkipSpace(s, i + |ScoreTag|);
       var b := DigitEnd(s, a);
       a < b < |s| && s[b] == '/' && b + 1 < DigitEnd(s, b + 1)
  }

  /** The two numbers the groups capture at a match. */
  function ScoreValueAt(s: string, i: nat): Score
    requires ScoreAt(s, i)
  {
    var a := SkipSpace(s, i + |ScoreTag|);
    var b := DigitEnd(s, a);
    Score(DigitsValue(s[a..b]), DigitsValue(s[b + 1..DigitEnd(s, b + 1)]))
  }

  function FindScore(s: string, from: nat): (r: Option<nat>)
    decreases |s| - from
    ensures r.Some? ==> from <= r.value && ScoreAt(s, r.value)
    ensures r.Some? ==> forall j :: from <= j < r.value ==> !ScoreAt(s, j)
    ensures r.None? ==> forall j :: from <= j ==> !ScoreAt(s, j)
  {
    if from + |ScoreTag| > |s| then None
    else if ScoreAt(s, from) then Some(from)
    else FindScore(s, from + 1)
  }

  /** The score of the leftmost `**Score:** a/b` marker, if any (`re.search`). */
  function ParseScore(s: string): (r: Option<Score>)
    ensures r.None? <==> forall i: nat :: !ScoreAt(s, i)
    ensures r.Some? ==> exists i: nat :: ScoreAt(s, i) && r.value == ScoreValueAt(s, i)
                                         && forall j: nat :: j < i ==> !ScoreAt(s, j)
  {
    match FindScore(s, 0)
    case None => None
    case Some(i) => Some(ScoreValueAt(s, i))
  }

  /**
   * The regular expression's own meaning, with the lengths made explicit:
   * the tag at `i`, `k` whitespace characters, `d1` digits, a slash, `d2` digits.
   */
  ghost predicate ScoreMatch(s: string, i: nat, k: nat, d1: nat, d2: nat) {
    var a := i + |ScoreTag| + k;
    && PrefixAt(s, i, ScoreTag)
    && a + d1 + 1 + d2 <= |s| && d1 > 0 && d2 > 0
    && (forall m :: i + |ScoreTag| <= m < a ==> IsSpace(s[m]))
    && (forall m :: a <= m < a + d1 ==> IsDigit(s[m]))
    && s[a + d1] == '/'
    && (forall m :: a + d1 + 1 <= m < a + d1 + 1 + d2 ==> IsDigit(s[m]))
  }

  /** Where `ScoreAt` holds, the regular expression matches, with the greedy lengths. */
  lemma ScoreAtMatches(s: string, i: nat)
    requires ScoreAt(s, i)
    ensures exists k: nat, d1: nat, d2: nat :: ScoreMatch(s, i, k, d1, d2)
  {
    var a := SkipSpace(s, i + |ScoreTag|);
    var b := DigitEnd(s, a);
    var e := DigitEnd(s, b + 1);
    assert ScoreMatch(s, i, a - i - |ScoreTag|, b - a, e - b - 1);
  }

  /** Where the regular expression matches, `ScoreAt` holds and its numerator is the matched digits. */
  lemma MatchIsScoreAt(s: string, i: nat, k: nat, d1: nat, d2: nat)
    requires ScoreMatch(s, i, k, d1, d2)
    ensures ScoreAt(s, i)
    ensures var a := i + |ScoreTag| + k; AllDigits(s[a..a + d1]) && ScoreValueAt(s, i).num == DigitsValue(s[a..a + d1])
  {
    var a := i + |ScoreTag| + k;
    MatchRuns(s, i, k, d1, d2);
    assert SkipSpace(s, i + |ScoreTag|) == a;
    assert DigitEnd(s, a) == a + d1;
  }

  /** The greedy runs of a match: the whitespace ends at the numerator, which ends at the slash. */
  lemma MatchRuns(s: string, i: nat, k: nat, d1: nat, d2: nat)
    requires ScoreMatch(s, i, k, d1, d2)
    ensures var a := i + |ScoreTag| + k;
      && AllDigits(s[a..a + d1])
      && SkipSpace(s, i + |ScoreTag|) == a
      && DigitEnd(s, a) == a + d1
      && a + d1 + 1 < DigitEnd(s, a + d1 + 1)
  {
    var j := i + |ScoreTag|;
    var a := j + k;
    assert IsDigit(s[a]) && !IsSpace(s[a]);
    SkipSpaceOf(s, j, k);
    var num := s[a..a + d1];
    forall m | 0 <= m < |num| ensures IsDigit(num[m]) {
      assert num[m] == s[a + m];
    }
    assert !IsDigit(s[a + d1]);
    DigitEndOf(s, a, s[a..a + d1]);
    assert IsDigit(s[a + d1 + 1]);
  }

  /** `ScoreAt` holds exactly where the regular expression matches. */
  lemma ScoreAtIffMatch(s: string, i: nat)
    ensures ScoreAt(s, i) <==> exists k: nat, d1: nat, d2: nat :: ScoreMatch(s, i, k, d1, d2)
  {
    if ScoreAt(s, i) {
      ScoreAtMatches(s, i);
    }
    if exists k: nat, d1: nat, d2: nat :: ScoreMatch(s, i, k, d1, d2) {
      var k: nat, d1: nat, d2: nat :| ScoreMatch(s, i, k, d1, d2);
      MatchIsScoreAt(s, i, k, d1, d2);
    }
  }

  /** A judge report that states `**Score:** a/b` is read back as exactly `a` and `b`. */
  lemma ParseRenderedScore(num: nat, den: nat)
    ensures ParseScore(ScoreTag + " " + Show(num) + "/" + Show(den)) == Some(Score(num, den))
  {
    var x, y := Show(num), Show(den);
    var s := ScoreTag + " " + x + "/" + y;
    RenderedScoreAt(s, x, y);
    assert FindScore(s, 0) == Some(0);
  }

  /** `s` is a score marker written with one space and the digit strings `x` and `y`. */
  predicate Rendered(s: string, x: string, y: string) {
    s == ScoreTag + " " + x + "/" + y && x != [] && y != [] && AllDigits(x) && AllDigits(y)
  }

  lemma RenderedScoreAt(s: string, x: string, y: string)
    requires Rendered(s, x, y)
    ensures ScoreAt(s, 0) && ScoreValueAt(s, 0) == Score(DigitsValue(x), DigitsValue(y))
  {
    RenderedTag(s, x, y);
    RenderedNumerator(s, x, y);
    RenderedDenominator(s, x, y);
  }

  lemma RenderedTag(s: string, x: string, y: string)
    requires Rendered(s, x, y)
    ensures PrefixAt(s, 0, ScoreTag) && SkipSpace(s, |ScoreTag|) == |ScoreTag| + 1
  {
    var head, tail := ScoreTag + " ", "/" + y;
    assert s == head + x + tail;
    assert s[..|ScoreTag|] == ScoreTag;
    assert s[|ScoreTag| + 1] == x[0];
    SkipSpaceOf(s, |ScoreTag|, 1);
  }

  lemma RenderedNumerator(s: string, x: string, y: string)
    requires Rendered(s, x, y)
    ensures DigitEnd(s, |ScoreTag| + 1) == |ScoreTag| + 1 + |x|
    ensures s[|ScoreTag| + 1..|ScoreTag| + 1 + |x|] == x
    ensures s[|ScoreTag| + 1 + |x|] == '/'
  {
    var a := |ScoreTag| + 1;
    var head, tail := ScoreTag + " ", "/" + y;
    assert s == head + x + tail;
    assert s[a..a + |x|] == x;
    DigitEndOf(s, a, x);
  }

  lemma RenderedDenominator(s: string, x: string, y: string)
    requires Rendered(s, x, y)
    ensures DigitEnd(s, |ScoreTag| + 2 + |x|) == |s|
    ensures s[|ScoreTag| + 2 + |x|..|s|] == y
  {
    DigitsToEnd(ScoreTag + " " + x + "/", y);
  }

  /** A run of digits at the end of a text reaches the end. */
  lemma DigitsToEnd(head: string, y: string)
    requires AllDigits(y)
    ensures DigitEnd(head + y, |head|) == |head + y|
    ensures (head + y)[|head|..] == y
  {
    var s := head + y;
    assert s[|head|..|s|] == y;
    DigitEndOf(s, |head|, y);
  }

  /** Score matching is case-sensitive: the lower-case tag is not a score. */
  lemma LowerCaseScoreTagIgnored()
    ensures ParseScore("**score:** 7/10") == None
  {
    var s := "**score:** 7/10";
    assert forall i :: 0 <= i < |s| ==> s[i] != 'S';
    forall i: nat ensures !PrefixAt(s, i, ScoreTag) {
      if i + |ScoreTag| <= |s| {
        assert s[i..i + |ScoreTag|][2] == s[i + 2];
      }
    }
  }

  // ---------------------------------------------------------------------------
  // Heading sections

  /** Where the lazy `(.*?)` stops: the first `\n## ` at or after `b`, or the end of the text. */
  function SectionEnd(s: string, b: nat): (e: nat)
    requires b <= |s|
    ensures b <= e <= |s|
    ensures e < |s| ==> PrefixAt(s, e, NextHeading)
    ensures forall j :: b <= j < e ==> !PrefixAt(s, j, NextHeading)
  {
    match FindFrom(s, NextHeading, b)
    case Some(j) => j
    case None => |s|
  }

  /**
   * `re.search(HEADING + r"(.*?)(?=\n## |\Z)", s, re.DOTALL)`, stripped, or ""
   * when the heading does not occur.
   */
  function ExtractSection(s: string, heading: string): (r: string)
    ensures !Contains(s, heading) ==> r == ""
    ensures !Contains(r, NextHeading)
    ensures r == Strip(r)
  {
    match Find(s, heading)
    case None => ""
    case Some(i) =>
      var body := SectionAfter(s, heading, i);
      StripAvoids(body, NextHeading);
      StripIdempotent(body);
      Strip(body)
  }

  /** The text the lazy group captures for a heading that occurs at `i`. */
  function SectionAfter(s: string, heading: string, i: nat): (body: string)
    requires PrefixAt(s, i, heading)
    ensures !Contains(body, NextHeading)
  {
    SectionBody(s, i + |heading|)
  }

  /** The text the lazy group captures when the heading ends at `b`: it never holds a following heading. */
  function SectionBody(s: string, b: nat): (body: string)
    requires b <= |s|
    ensures !Contains(body, NextHeading)
  {
    var e := SectionEnd(s, b);
    var body := s[b..e];
    assert forall j: nat :: PrefixAt(body, j, NextHeading) ==> PrefixAt(s, b + j, NextHeading) by {
      forall j: nat | PrefixAt(body, j, NextHeading) ensures PrefixAt(s, b + j, NextHeading) {
        assert body[j..j + 4] == s[b + j..b + j + 4];
      }
    }
    body
  }

  /** `extract_criteria_feedback`: the judge's "Suggested Fixes" section, stripped; "" without the heading. */
  function ExtractCriteriaFeedback(verdict: string): (r: string)
    ensures !Contains(verdict, SuggestedFixes) ==> r == ""
    ensures r == Strip(r) && !Contains(r, NextHeading)
  {
    ExtractSection(verdict, SuggestedFixes)
  }

  /** `extract_gaps`: the judge's "Gap Summary" section, stripped; "" without the heading. */
  function ExtractGaps(verdict: string): (r: string)
    ensures !Contains(verdict, GapSummary) ==> r == ""
    ensures r == Strip(r) && !Contains(r, NextHeading)
  {
    ExtractSection(verdict, GapSummary)
  }

  /** A body without a `\n## ` of its own gains none by being followed by a newline. */
  lemma NoHeadingAcrossJoin(body: string, rest: string)
    requires !Contains(body, NextHeading)
    requires rest == [] || rest[0] == '\n'
    ensures forall j: nat :: j < |body| ==> !PrefixAt(body + rest, j, NextHeading)
  {
    var s := body + rest;
    assert |body| < |s| ==> s[|body|] == '\n';
    forall j: nat | j < |body| && PrefixAt(s, j, NextHeading) ensures j + 4 <= |body| {
      assert forall p :: j < p < j + 4 ==> s[p] == s[j..j + 4][p - j];
      assert forall m :: 1 <= m < 4 ==> NextHeading[m] != '\n';
    }
    forall j: nat | j < |body| && PrefixAt(s, j, NextHeading) ensures PrefixAt(body, j, NextHeading) {
      assert body[j..j + 4] == s[j..j + 4];
    }
  }

  /** `SectionEnd` is the first terminator position, so any position with that property is it. */
  lemma SectionEndIs(s: string, b: nat, e: nat)
    requires b <= e <= |s|
    requires forall j :: b <= j < e ==> !PrefixAt(s, j, NextHeading)
    requires e == |s| || PrefixAt(s, e, NextHeading)
    ensures SectionEnd(s, b) == e
  {
  }

  /** Looking at position `b + j` of `s` is looking at position `j` of `s[b..]`. */
  lemma PrefixShift(s: string, b: nat, j: nat, t: string)
    requires b <= |s|
    ensures PrefixAt(s, b + j, t) <==> PrefixAt(s[b..], j, t)
  {
    if b + j + |t| <= |s| {
      assert s[b..][j..j + |t|] == s[b + j..b + j + |t|];
    }
  }

  /**
   * The section under the first occurrence of the heading, wherever it stands:
   * text before it, then the heading, a body, and the next heading. The
   * section is exactly the stripped body.
   */
  lemma SectionBeforeHeading(pre: string, heading: string, body: string, rest: string)
    requires Find(pre + heading + body + NextHeading + rest, heading) == Some(|pre|)
    requires !Contains(body, NextHeading)
    ensures ExtractSection(pre + heading + body + NextHeading + rest, heading) == Strip(body)
  {
    BodyAfterHeading(pre, heading, body, rest);
    SectionUntilHeading(pre + heading + body + NextHeading + rest, heading, |pre|, body, rest);
  }

  /** The section under the first occurrence of the heading, at `i`, when a body and the next heading follow it. */
  lemma SectionUntilHeading(s: string, heading: string, i: nat, body: string, rest: string)
    requires Find(s, heading) == Some(i) && i + |heading| <= |s|
    requires s[i + |heading|..] == body + NextHeading + rest && !Contains(body, NextHeading)
    ensures ExtractSection(s, heading) == Strip(body)
  {
    SectionFrom(s, heading, i);
    assert SectionAfter(s, heading, i) == body by {
      BodyThenHeadingEnds(s, i + |heading|, body, rest);
      assert SectionAfter(s, heading, i) == SectionBody(s, i + |heading|);
    }
  }

  /** Where the body and what follows it sit in `pre + heading + body + NextHeading + rest`. */
  lemma BodyAfterHeading(pre: string, heading: string, body: string, rest: string)
    ensures var s := pre + heading + body + NextHeading + rest;
      var b := |pre| + |heading|;
      b + |body| <= |s| && s[b..] == body + NextHeading + rest && s[b..b + |body|] == body
  {
    var s := pre + heading + body + NextHeading + rest;
    var b := |pre| + |heading|;
    var tail := body + NextHeading + rest;
    assert s == (pre + heading) + tail;
    assert s[b..] == tail;
    assert s[b..b + |body|] == tail[..|body|] == body;
  }

  /** The section is the stripped body that follows the first occurrence of the heading. */
  lemma SectionFrom(s: string, heading: string, i: nat)
    requires Find(s, heading) == Some(i)
    ensures PrefixAt(s, i, heading)
    ensures ExtractSection(s, heading) == Strip(SectionAfter(s, heading, i))
  {
    assert FindFrom(s, heading, 0) == Some(i);
  }

  /** A body free of headings, then a heading, after `b`: the section ends where the body does. */
  lemma BodyThenHeadingEnds(s: string, b: nat, body: string, rest: string)
    requires b <= |s| && s[b..] == body + NextHeading + rest
    requires !Contains(body, NextHeading)
    ensures SectionEnd(s, b) == b + |body|
    ensures SectionBody(s, b) == body
  {
    var t := s[b..];
    assert t == body + (NextHeading + rest);
    NoHeadingAcrossJoin(body, NextHeading + rest);
    forall j | b <= j < b + |body| ensures !PrefixAt(s, j, NextHeading) {
      PrefixShift(s, b, j - b, NextHeading);
    }
    assert t[|body|..|body| + 4] == NextHeading;
    PrefixShift(s, b, |body|, NextHeading);
    SectionEndIs(s, b, b + |body|);
    assert s[b..b + |body|] == t[..|body|] == body;
  }

  /**
   * The section under the first occurrence of the heading when no further
   * heading follows: text before it, then the heading and a body running to
   * the end of the text. The section is exactly the stripped body.
   */
  lemma SectionAtEnd(pre: string, heading: string, body: string)
    requires Find(pre + heading + body, heading) == Some(|pre|)
    requires !Contains(body, NextHeading)
    ensures ExtractSection(pre + heading + body, heading) == Strip(body)
  {
    var s := pre + heading + body;
    assert s[|pre| + |heading|..] == body;
    SectionToEnd(s, heading, |pre|, body);
  }

  /** The section under the first occurrence of the heading, at `i`, when a body without a heading runs to the end. */
  lemma SectionToEnd(s: string, heading: string, i: nat, body: string)
    requires Find(s, heading) == Some(i) && i + |heading| <= |s|
    requires s[i + |heading|..] == body && !Contains(body, NextHeading)
    ensures ExtractSection(s, heading) == Strip(body)
  {
    SectionFrom(s, heading, i);
    assert SectionAfter(s, heading, i) == body by {
      BodyToEnd(s, i + |heading|, body);
      assert SectionAfter(s, heading, i) == SectionBody(s, i + |heading|);
    }
  }

  /** A body without a following heading runs to the end of the text. */
  lemma BodyToEnd(s: string, b: nat, body: string)
    requires b <= |s| && s[b..] == body && !Contains(body, NextHeading)
    ensures SectionBody(s, b) == body
  {
    forall j | b <= j < |s| ensures !PrefixAt(s, j, NextHeading) {
      PrefixShift(s, b, j - b, NextHeading);
    }
    SectionEndIs(s, b, |s|);
    assert s[b..|s|] == body;
  }
}
