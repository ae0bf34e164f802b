/**
 * `find_best_iteration`: after the last iteration fails, the run picks the
 * iteration whose verdict reports the most passing criteria, scanning the
 * `iter-NN` directories in sorted order and keeping the first on ties. An
 * iteration counts only when its verdict carries a `**Score:** N/M` marker;
 * with none, the result is iteration 1 and an empty output.
 */
module Selection {
  import opened Wrappers
  import opened Text
  import opened Verdict
  import opened Workspace

  /** The last iteration whose directory the sorted scan reaches in numeric order (see `GlobOrderIsNumeric`). */
  const GlobLimit := 99

  /** The numerator of the first score marker in `iter-NN/verdict.md`, if there is one. */
  function ScoreOf(files: Files, n: int): (r: Option<nat>)
    ensures r.None? <==> ParseScore(Read(files, IterVerdict(n))).None?
  {
    match ParseScore(Read(files, IterVerdict(n)))
    case None => None
    case Some(score) => Some(score.num)
  }

  /** The scores of `iter-01` to `iter-99`, in scan order: entry `i` belongs to iteration `i + 1`. */
  function Scores(files: Files): (r: seq<Option<nat>>)
    ensures |r| == GlobLimit
  {
    seq(GlobLimit, i => ScoreOf(files, i + 1))
  }

  /** The `output.md` texts of `iter-01` to `iter-99`, in scan order. */
  function Outputs(files: Files): (r: seq<string>)
    ensures |r| == GlobLimit
  {
    seq(GlobLimit, i => Read(files, IterOutput(i + 1)))
  }

  /** The scan from entry `i` on, having kept iteration `best` with `score` and its `output` so far. */
  function BestFrom(scores: seq<Option<nat>>, outputs: seq<string>, i: nat, best: int, score: int, output: string): (int, string)
    requires |outputs| == |scores|
    decreases |scores| - i
  {
    if i >= |scores| then (best, output)
    else if scores[i].Some? && scores[i].value > score then BestFrom(scores, outputs, i + 1, i + 1, scores[i].value, outputs[i])
    else BestFrom(scores, outputs, i + 1, best, score, output)
  }

  /** `find_best_iteration` on a workspace: the chosen iteration and its output. */
  function Best(files: Files): (int, string) {
    BestFrom(Scores(files), Outputs(files), 0, 1, -1, "")
  }

  /** None of the first `i` entries has a score. */
  ghost predicate Unscored(scores: seq<Option<nat>>, i: nat)
    requires i <= |scores|
  {
    forall j :: 0 <= j < i ==> scores[j].None?
  }

  /**
   * Iteration `b`, with its `score` and `output`, is the first best among the
   * first `i` entries: it has that score, no entry has more, and every earlier
   * one has less.
   */
  ghost predicate FirstBest(scores: seq<Option<nat>>, outputs: seq<string>, i: nat, b: int, score: int, output: string)
    requires |outputs| == |scores| && i <= |scores|
  {
    && 1 <= b <= i && scores[b - 1].Some? && scores[b - 1].value == score
    && output == outputs[b - 1]
    && (forall j :: 0 <= j < i && scores[j].Some? ==> scores[j].value <= score)
    && (forall j :: 0 <= j < b - 1 && scores[j].Some? ==> scores[j].value < score)
  }

  /** What the scan has kept after the first `i` entries. */
  ghost predicate Scanned(scores: seq<Option<nat>>, outputs: seq<string>, i: nat, b: int, score: int, output: string)
    requires |outputs| == |scores| && i <= |scores|
  {
    || (Unscored(scores, i) && b == 1 && score == -1 && output == "")
    || FirstBest(scores, outputs, i, b, score, output)
  }

  /**
   * The result `find_best_iteration` promises, independently of how it scans:
   * iteration 1 and "" when no entry has a score, and otherwise the first
   * iteration with the highest score, with its output.
   */
  ghost predicate IsBestOf(scores: seq<Option<nat>>, outputs: seq<string>, b: int, output: string)
    requires |outputs| == |scores|
  {
    if Unscored(scores, |scores|) then b == 1 && output == ""
    else 1 <= b <= |scores| && scores[b - 1].Some? && FirstBest(scores, outputs, |scores|, b, scores[b - 1].value, output)
  }

  /** `IsBestOf` on the workspace's iterations 1 to 99. */
  ghost predicate IsBest(files: Files, b: int, output: string) {
    IsBestOf(Scores(files), Outputs(files), b, output)
  }

  /** One more entry scanned keeps what was kept, or replaces it by a strictly higher score. */
  lemma ScanStep(scores: seq<Option<nat>>, outputs: seq<string>, i: nat, b: int, score: int, output: string)
    requires |outputs| == |scores| && i < |scores| && Scanned(scores, outputs, i, b, score, output)
    ensures if scores[i].Some? && scores[i].value > score then Scanned(scores, outputs, i + 1, i + 1, scores[i].value, outputs[i])
      else Scanned(scores, outputs, i + 1, b, score, output)
  {
    if scores[i].Some? && scores[i].value > score {
      assert FirstBest(scores, outputs, i + 1, i + 1, scores[i].value, outputs[i]);
    } else if Unscored(scores, i) && b == 1 && score == -1 && output == "" {
      assert Unscored(scores, i + 1);
    } else {
      assert FirstBest(scores, outputs, i + 1, b, score, output);
    }
  }

  /** The scan from entry `i` on ends in a result of the promised shape. */
  lemma {:induction false} BestFromIsBest(scores: seq<Option<nat>>, outputs: seq<string>, i: nat, b: int, score: int, output: string)
    requires |outputs| == |scores| && i <= |scores| && Scanned(scores, outputs, i, b, score, output)
    decreases |scores| - i
    ensures IsBestOf(scores, outputs, BestFrom(scores, outputs, i, b, score, output).0, BestFrom(scores, outputs, i, b, score, output).1)
  {
    if i < |scores| {
      ScanStep(scores, outputs, i, b, score, output);
      if scores[i].Some? && scores[i].value > score {
        BestFromIsBest(scores, outputs, i + 1, i + 1, scores[i].value, outputs[i]);
      } else {
        BestFromIsBest(scores, outputs, i + 1, b, score, output);
      }
    } else if !Unscored(scores, i) {
      assert FirstBest(scores, outputs, i, b, score, output);
    }
  }

  /** `Best` is the first best iteration, or the default when nothing has a score. */
  lemma BestIsBest(files: Files)
    ensures IsBest(files, Best(files).0, Best(files).1)
  {
    BestFromIsBest(Scores(files), Outputs(files), 0, 1, -1, "");
  }

  /** Only one iteration and output fit the promise, so `Best` is the only answer. */
  lemma BestUnique(scores: seq<Option<nat>>, outputs: seq<string>, b1: int, o1: string, b2: int, o2: string)
    requires |outputs| == |scores|
    requires IsBestOf(scores, outputs, b1, o1) && IsBestOf(scores, outputs, b2, o2)
    ensures b1 == b2 && o1 == o2
  {
    if !Unscored(scores, |scores|) {
      assert scores[b1 - 1].value == scores[b2 - 1].value;
    }
  }

  /** `find_best_iteration`: the scan over `iter-01` to `iter-99`. */
  method FindBestIteration(ws: Store) returns (bestIter: int, bestOutput: string)
    ensures (bestIter, bestOutput) == Best(ws.files)
    ensures IsBest(ws.files, bestIter, bestOutput)
  {
    ghost var scores, outputs := Scores(ws.files), Outputs(ws.files);
    var bestScore: int := -1;
    bestIter, bestOutput := 1, "";
    var n := 1;
    while n <= GlobLimit
      invariant 1 <= n <= GlobLimit + 1
      invariant Scanned(scores, outputs, n - 1, bestIter, bestScore, bestOutput)
      invariant BestFrom(scores, outputs, n - 1, bestIter, bestScore, bestOutput) == Best(ws.files)
    {
      var next;
      bestIter, bestScore, bestOutput, next := ScanIteration(ws, n, bestIter, bestScore, bestOutput);
      n := next;
    }
    BestIsBest(ws.files);
    BestFromIsBest(scores, outputs, n - 1, bestIter, bestScore, bestOutput);
    BestUnique(scores, outputs, bestIter, bestOutput, Best(ws.files).0, Best(ws.files).1);
  }

  /** One pass of the scan: iteration `n` replaces the kept one when its score is strictly higher. */
  method ScanIteration(ws: Store, n: int, best: int, score: int, output: string)
    returns (best': int, score': int, output': string, next: int)
    requires 1 <= n <= GlobLimit
    requires Scanned(Scores(ws.files), Outputs(ws.files), n - 1, best, score, output)
    ensures next == n + 1
    ensures Scanned(Scores(ws.files), Outputs(ws.files), n, best', score', output')
    ensures BestFrom(Scores(ws.files), Outputs(ws.files), n, best', score', output')
         == BestFrom(Scores(ws.files), Outputs(ws.files), n - 1, best, score, output)
  {
    ghost var scores, outputs := Scores(ws.files), Outputs(ws.files);
    ScanStep(scores, outputs, n - 1, best, score, output);
    assert scores[n - 1] == ScoreOf(ws.files, n) && outputs[n - 1] == Read(ws.files, IterOutput(n));
    var m := ParseScore(Read(ws.files, IterVerdict(n)));
    if m.Some? && m.value.num > score {
      best', score', output' := n, m.value.num, Read(ws.files, IterOutput(n));
    } else {
      best', score', output' := best, score, output;
    }
    next := n + 1;
  }

  // ---------------------------------------------------------------------------
  // An example

  /** The verdict text a judge writes for a score of `num` out of `den`. */
  function ScoreLine(num: nat, den: nat): string {
    ScoreTag + " " + Show(num) + "/" + Show(den)
  }

  /** A workspace whose only verdicts are the score lines `num1/den1`, `num2/den2` and `num3/den3` in iterations 1 to 3. */
  ghost predicate ThreeVerdicts(files: Files, num1: nat, den1: nat, num2: nat, den2: nat, num3: nat, den3: nat) {
    && IterVerdict(1) in files && files[IterVerdict(1)] == ScoreLine(num1, den1)
    && IterVerdict(2) in files && files[IterVerdict(2)] == ScoreLine(num2, den2)
    && IterVerdict(3) in files && files[IterVerdict(3)] == ScoreLine(num3, den3)
    && forall n :: 3 < n ==> IterVerdict(n) !in files
  }

  lemma ThreeScores(files: Files, num1: nat, den1: nat, num2: nat, den2: nat, num3: nat, den3: nat)
    requires ThreeVerdicts(files, num1, den1, num2, den2, num3, den3)
    ensures var scores := Scores(files);
      && scores[0] == Some(num1) && scores[1] == Some(num2) && scores[2] == Some(num3)
      && forall j :: 3 <= j < GlobLimit ==> scores[j].None?
  {
    ScoreOfLine(files, 1, num1, den1);
    ScoreOfLine(files, 2, num2, den2);
    ScoreOfLine(files, 3, num3, den3);
    assert Scores(files)[0] == ScoreOf(files, 1);
    assert Scores(files)[1] == ScoreOf(files, 2);
    assert Scores(files)[2] == ScoreOf(files, 3);
    NoScoresFrom(files, 4);
  }

  /** No verdict from iteration `n` on: none of those iterations has a score. */
  lemma NoScoresFrom(files: Files, n: int)
    requires 1 <= n && forall m :: n <= m ==> IterVerdict(m) !in files
    ensures forall j :: n - 1 <= j < GlobLimit ==> Scores(files)[j].None?
  {
    forall j | n - 1 <= j < GlobLimit ensures Scores(files)[j].None? {
      NoVerdictNoScore(files, j + 1);
    }
  }

  /** The scan over scores 3, 7, 2 and then nothing keeps the second entry. */
  lemma ExampleScan(scores: seq<Option<nat>>, outputs: seq<string>)
    requires |scores| == |outputs| == GlobLimit
    requires scores[0] == Some(3) && scores[1] == Some(7) && scores[2] == Some(2)
    requires forall j :: 3 <= j < GlobLimit ==> scores[j].None?
    ensures BestFrom(scores, outputs, 0, 1, -1, "") == (2, outputs[1])
  {
    assert FirstBest(scores, outputs, GlobLimit, 2, 7, outputs[1]);
    BestFromIsBest(scores, outputs, 0, 1, -1, "");
    BestUnique(scores, outputs, 2, outputs[1], BestFrom(scores, outputs, 0, 1, -1, "").0, BestFrom(scores, outputs, 0, 1, -1, "").1);
  }

  /** Scores 3, 7 and 2 in iterations 1 to 3: iteration 2 and its output are chosen. */
  lemma ExampleBest(files: Files, den1: nat, den2: nat, den3: nat)
    requires ThreeVerdicts(files, 3, den1, 7, den2, 2, den3)
    ensures Best(files) == (2, Read(files, IterOutput(2)))
  {
    ThreeScores(files, 3, den1, 7, den2, 2, den3);
    ExampleScan(Scores(files), Outputs(files));
  }

  /** A verdict holding exactly a rendered score line scores its numerator. */
  lemma ScoreOfLine(files: Files, n: int, num: nat, den: nat)
    requires IterVerdict(n) in files && files[IterVerdict(n)] == ScoreLine(num, den)
    ensures ScoreOf(files, n) == Some(num)
  {
    ParseRenderedScore(num, den);
  }

  /** An iteration without `verdict.md` has no score. */
  lemma NoVerdictNoScore(files: Files, n: int)
    requires IterVerdict(n) !in files
    ensures ScoreOf(files, n).None?
  {
    assert forall i: nat :: !ScoreAt("", i);
  }
}
