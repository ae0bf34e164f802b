# checkmate orchestrator — a Dafny model

checkmate drives a task to completion with an LLM through a deterministic
loop, `scripts/run.py`. A run works in a workspace directory and goes through
these stages:

1. **Task.** It settles what to work on (`--task`, or `task.md`).
2. **Terminal check.** It refuses to do more once `state.json` says `pass` or
   `fail`.
3. **Intake.** It has an agent draft acceptance criteria, asking the user
   for clarification when a draft contains `[NEEDS_CLARIFICATION]`. It has
   another agent judge each draft that does not ask for clarification,
   until one is approved or the rounds run out, then locks the last draft
   into `criteria.md`.
4. **Worker/judge loop.** It runs from the iteration after the stored one up
   to `--max-iter`:
   - it saves a running state;
   - it obtains the worker's output, reusing `iter-NN/output.md` when it
     exists;
   - it has the output judged, unless the output contains `[BLOCKED]`;
   - it stops at the first `**Result:** PASS`;
   - otherwise it appends the iteration's gaps to `feedback.md` and to the
     feedback the next worker sees.
5. **Giving up.** When every iteration fails, it writes the best-scoring
   attempt to `final-output.md` and marks the run failed.

## How it is modelled

- **Workspace.** The workspace is the class `Workspace.Store`. Its fields
  are a map from `Workspace.Path` (`task.md`, `criteria.md`, `feedback.md`,
  `final-output.md`, `iter-NN/…`, `intake-NN/…`, the two clarification
  files) to text, and `state.json` as a typed `State`.
- **Agent gateway.** It is the class `Environment.Agent`. It holds the
  sequence of replies it will give, with `None` for a call that fails, and
  a log of the calls made.
- **User.** It is the class `Environment.Human`. It holds what they write
  into `clarification-response.md` during each 30-second sleep.
- **Specifications.** Every operation is a method that changes those
  objects. Each method is proved equal to a function on a `World` snapshot
  (`RunSpec`, `RunIntakeSpec`, `IterLoop`, `Clarify`, `Best`, …). The
  lemmas state what the source promises about those functions.
- **Parsers.** The verdict parsers (`Verdict`) and the string primitives
  they rest on (`Text`) are pure functions.

Where the code and its documentation disagree, the model follows the code:

- The verdict markers require the bold `**Result:**` / `**Score:**` tags.
- Result matching ignores case; score matching does not.
- A run resumes at the stored iteration + 1. Since that iteration was saved
  as `running` before its work began, an iteration interrupted by a failed
  agent call is not rerun (`Orchestrator.RerunAfterRun`).
- The workers receive the description `main` read at startup. They do not see the
  clarifications that intake appended to `task.md`.
- `clarification-response.md` is never deleted.

## Model

| member | source | states |
|---|---|---|
| Workspace.LoadState | scripts/run.py:37-39 | without `state.json` the state is iteration 0, running |
| Workspace.Read | scripts/run.py:28-29 | a file's contents when it exists, "" when it does not |
| Workspace.Store.Write | scripts/run.py:32-34 | exactly the one file is created or overwritten; nothing else changes |
| Workspace.Store.Append | scripts/run.py:344-345 | the file becomes its old contents (or "") followed by the text |
| Workspace.Store.Remove | scripts/run.py:114 | the file is gone, missing or not; nothing else changes |
| Workspace.Store.SaveState | scripts/run.py:42-43 | the stored state is replaced; the files are untouched |
| Workspace.GlobOrderIsNumeric | scripts/run.py:260 | for iterations 1 to 99 the sorted `iter-NN` names come in numeric order |
| Workspace.GlobOrderBreaksAtHundred | scripts/run.py:260 | `iter-100` sorts before `iter-11`, so the sorted scan is numeric only below 100 |
| Environment.Agent.Invoke | scripts/run.py:48-68 | each call is logged and answered by the next reply, or fails when none is left |
| Environment.Human.Wait | scripts/run.py:119 | each sleep consumes one observation of what the user wrote |
| Text.Strip | scripts/run.py:112 | the result has no leading or trailing whitespace (Python's `isspace` set) |
| Text.StripIsSlice | scripts/run.py:112 | the result is one slice of the input, and only whitespace is removed around it |
| Text.StripEmptyIff | scripts/run.py:131 | `s.strip()` is empty exactly when every character of `s` is whitespace |
| Text.StripOccurs | scripts/run.py:179 | the stripped text occurs in the original |
| Text.StripIdempotent | scripts/run.py:152 | stripping a stripped text changes nothing |
| Text.ContainsIff | scripts/run.py:177 | `t in s` holds exactly when some position of `s` starts with `t` |
| Text.AfterFirst | scripts/run.py:179 | `split(marker, 1)[1]` is the text after the first occurrence of the marker |
| Text.SkipSpace | scripts/run.py:145 | a greedy `\s*` stops at the first non-whitespace character |
| Text.DigitEnd | scripts/run.py:247 | a greedy `\d+` covers exactly the run of digits |
| Text.Show | scripts/run.py:343 | `str(n)` is n's digits, without leading zeros, and reads back as n |
| Text.Pad2 | scripts/run.py:203 | `{n:02d}` reads back as n; it is exactly two digits below 10 and `str(n)` from 10 on |
| Text.ShowInt | scripts/run.py:343 | `str(i)` is a minus sign exactly for negative numbers, then the digits of the absolute value without leading zeros |
| Verdict.FindResult | scripts/run.py:145 | it finds a marker position when there is one and reports none only when none exists |
| Verdict.HasResultIffMatch | scripts/run.py:145-146 | the marker check holds iff the tag, any whitespace and the word occur somewhere, ignoring case |
| Verdict.IsApproved | scripts/run.py:145 | criteria are approved iff `**Result:**\s*APPROVED` matches, ignoring case |
| Verdict.IsPass | scripts/run.py:246 | work passes iff `**Result:**\s*PASS` matches, ignoring case |
| Verdict.NoTagNoVerdict | scripts/run.py:246 | a reply without the bold tag is neither approved nor passing |
| Verdict.MarkerAnywhere | scripts/run.py:145 | the marker in any letter case, anywhere, with any whitespace gap, is found |
| Verdict.LowerCaseApproval | scripts/run.py:145 | `**Result:** approved` is an approval |
| Verdict.PlainResultIsNotApproval | scripts/run.py:145 | the unbolded `Result: APPROVED` is not an approval |
| Verdict.FindScore | scripts/run.py:247 | it returns the leftmost score marker position, and none only when there is none |
| Verdict.ParseScore | scripts/run.py:247 | no score iff no marker; otherwise the numbers of the leftmost marker |
| Verdict.ScoreAtIffMatch | scripts/run.py:247 | a score marker is exactly `**Score:**`, whitespace, digits, `/`, digits |
| Verdict.MatchIsScoreAt | scripts/run.py:261 | at a match the numerator is the value of the matched digits |
| Verdict.ParseRenderedScore | scripts/run.py:247-248 | `**Score:** a/b` parses back to exactly a and b |
| Verdict.LowerCaseScoreTagIgnored | scripts/run.py:247 | score matching is case-sensitive: `**score:**` gives no score |
| Verdict.ExtractSection | scripts/run.py:151-152 | "" without the heading; the result is stripped and holds no following heading |
| Verdict.SectionFrom | scripts/run.py:151-152 | the unfolding step: with the heading first found at i, the section is the stripped lazy capture after i |
| Verdict.SectionUntilHeading | scripts/run.py:254-255 | when a body and then a heading follow the heading's first occurrence, the section is exactly the stripped body |
| Verdict.SectionToEnd | scripts/run.py:151-152 | when a body without a heading runs from the heading's first occurrence to the end, the section is exactly the stripped body |
| Verdict.SectionBeforeHeading | scripts/run.py:254-255 | any text, then the first occurrence of the heading, a body and the next heading: the section is exactly the stripped body |
| Verdict.SectionAtEnd | scripts/run.py:151-152 | any text, then the first occurrence of the heading and a body to the end of text: the section is exactly the stripped body |
| Verdict.ExtractCriteriaFeedback | scripts/run.py:149-152 | the "Suggested Fixes" section: "" without that heading, otherwise stripped and free of a following heading |
| Verdict.ExtractGaps | scripts/run.py:253-255 | the "Gap Summary" section: "" without that heading, otherwise stripped and free of a following heading |
| Clarification.RequestClarification | scripts/run.py:90-122 | the poll loop leaves the workspace and user exactly as `Clarify` says |
| Clarification.TakeAnswer | scripts/run.py:111-118 | the stripped response is returned and appended to `task.md`, and the questions file is removed |
| Clarification.SleepOnce | scripts/run.py:119 | one sleep advances the check count without changing what the rest of the polling yields |
| Clarification.Poll | scripts/run.py:110-122 | polling makes no agent call, keeps the state and touches only `task.md` and the two clarification files |
| Clarification.FirstAnswer | scripts/run.py:110-111 | it returns the first sleep with an answer within the limit, or none, with no answer before it |
| Clarification.PollWithoutResponse | scripts/run.py:110-122 | polling from check k equals the closed form `Polled` with the remaining checks |
| Clarification.ClarifyOutcome | scripts/run.py:95-122 | an existing response is taken at once; otherwise the first answer within 59 sleeps is taken, else "" after 60 |
| Clarification.ClarifyAnsweredTask | scripts/run.py:111-118 | a taken answer grows `task.md` by exactly `## User Clarification` and the answer, and removes the questions |
| Clarification.ClarifyTimeoutTask | scripts/run.py:121-122 | on timeout `task.md` is unchanged, the questions stay posted and the answer is "" |
| Clarification.ClarifyBounded | scripts/run.py:110 | a clarification round sleeps at most 60 times |
| Intake.Refinement | scripts/run.py:131 | the judge's feedback is passed on iff it is not all whitespace, and then unchanged |
| Intake.Questions | scripts/run.py:179 | the questions are stripped and occur in the draft after its first clarification marker |
| Intake.RunIntakeDraft | scripts/run.py:127-133 | one draft call, carrying the feedback only when it is not blank |
| Intake.RunCriteriaJudge | scripts/run.py:136-146 | one judge call; approved iff the reply holds the APPROVED marker |
| Intake.IntakeStep | scripts/run.py:167-187 | one round re-reads `task.md`, drafts, saves the draft, then clarifies or judges |
| Intake.SettleStep | scripts/run.py:176-187 | a draft asking for clarification goes to the user and is never judged; any other draft is judged and the verdict saved |
| Intake.IntakeIteration | scripts/run.py:165-194 | one loop pass: it stops on a failed call or approval, else continues with the new task, draft and feedback |
| Intake.RunIntake | scripts/run.py:155-198 | `run_intake` leaves the workspace, agent and user exactly as `RunIntakeSpec` says |
| Intake.IntakeRoundFiles | scripts/run.py:170-187 | a round touches only its own draft and verdict, `task.md` and the clarification files |
| Intake.IntakeRoundKeepsCriteria | scripts/run.py:174-187 | a round never creates `criteria.md` |
| Intake.SettleDraftFacts | scripts/run.py:177-186 | a round is judged iff its draft has no clarification marker, and only then calls the judge |
| Intake.IntakeRoundFacts | scripts/run.py:167-187 | a completed round has its number and feedback, and made exactly the draft call plus the judge call when judged |
| Intake.IntakeLoopShape | scripts/run.py:165-196 | the loop, continued from any valid prefix of rounds, ends in a result of `IntakeShape` |
| Intake.IntakeProperties | scripts/run.py:155-198 | see below |
| Iteration.WorkerFeedback | scripts/run.py:216 | blank feedback becomes the first-attempt note; other feedback is sent stripped and is never empty |
| Iteration.GapEntry | scripts/run.py:343 | the entry starts with a new heading line and ends with the gaps and a newline |
| Iteration.RunWorker | scripts/run.py:201-226 | an existing `iter-NN/output.md` is reused without a call; otherwise the reply is written there |
| Iteration.RunJudge | scripts/run.py:229-250 | one judge call whose reply goes to `iter-NN/verdict.md`; pass iff the PASS marker is present |
| Iteration.RunIteration | scripts/run.py:313-346 | one iteration saves a running state and then does what `IterationStep` says, returning its feedback entry |
| Iteration.FinishIteration | scripts/run.py:319-346 | a blocked output skips the judge; a pass writes the final output and a passing state; otherwise the gaps are logged |
| Iteration.LogGaps | scripts/run.py:341-346 | non-empty gaps append exactly `\n## Iteration N gaps (ts)\n…\n` to `feedback.md`; empty gaps change nothing |
| Iteration.LoopBody | scripts/run.py:311-346 | one loop pass, and what it means for the rest of the loop |
| Iteration.RunIterations | scripts/run.py:309-346 | the loop leaves the workspace and agent exactly as `IterLoop` says, and returns its final in-memory feedback |
| IterationShape.WorkerFacts | scripts/run.py:207-226 | the worker step calls the agent iff there is no output file, and leaves the output in `iter-NN/output.md` |
| IterationShape.AfterWorkerFacts | scripts/run.py:319-346 | the judge runs iff the output is not blocked; a pass sets the final output and status |
| IterationShape.LogFacts | scripts/run.py:341-346 | logging appends exactly the entry to `feedback.md` and touches no other file, state or call |
| IterationShape.IterationStepFacts | scripts/run.py:313-346 | an iteration touches only its own files, `feedback.md` and `final-output.md`, and leaves iteration n running, or passed |
| IterationShape.IterLoopShape | scripts/run.py:311-346 | from any point satisfying the loop invariant `Between`, the loop ends in a result of `LoopShape` |
| IterationShape.IterationsProperties | scripts/run.py:309-346 | see below |
| Selection.ScoreOf | scripts/run.py:261-263 | an iteration has a score iff its verdict holds a score marker |
| Selection.NoVerdictNoScore | scripts/run.py:262 | an iteration without `verdict.md` has no score |
| Selection.ScoreOfLine | scripts/run.py:261 | a verdict `**Score:** a/b` scores a, whatever b is |
| Selection.BestFromIsBest | scripts/run.py:260-266 | the scan ends with the first highest-scoring iteration, or the default |
| Selection.BestIsBest | scripts/run.py:258-267 | `find_best_iteration` gives the first iteration with the greatest numerator and its output, or (1, "") when none scores |
| Selection.BestUnique | scripts/run.py:258-267 | only one iteration and output meet that description |
| Selection.ScanIteration | scripts/run.py:261-266 | one scan step replaces the kept iteration only on a strictly higher score |
| Selection.FindBestIteration | scripts/run.py:258-267 | the scan returns `Best`, which is the first best iteration |
| Selection.ExampleScan | scripts/run.py:263 | scores 3, 7, 2 keep the second iteration |
| Selection.ExampleBest | scripts/run.py:258-267 | verdicts scoring 3, 7 and 2 choose iteration 2 and its output |
| Orchestrator.Run | scripts/run.py:287-351 | `main` leaves the workspace, agent and user exactly as `RunSpec` says, and reports how it ended |
| Orchestrator.Resume | scripts/run.py:293-298 | a terminal status ends the run; otherwise it proceeds from the stored iteration + 1 |
| Orchestrator.Proceed | scripts/run.py:305-311 | intake, then the loop with the original task and the criteria intake returned |
| Orchestrator.Loop | scripts/run.py:309-351 | the loop, then on exhaustion the best attempt as final output and a failed state |
| Orchestrator.TerminalShortCircuit | scripts/run.py:287-296 | see below |
| Orchestrator.GiveUpWritesBest | scripts/run.py:349-351 | see below |
| Orchestrator.NothingLeftToRun | scripts/run.py:311-351 | resuming past `--max-iter` runs no iteration, makes no call, and still gives up on the best attempt |
| Orchestrator.LoopProperties | scripts/run.py:309-351 | the loop's guarantees from intake's world; each ending matches how the loop ended, with its state |
| Orchestrator.ConcludeFacts | scripts/run.py:327-351 | the reported ending corresponds one-to-one to how the loop ended, with the saved state |
| Orchestrator.RunLeavesState | scripts/run.py:313-351 | a pass leaves `(n, pass)`, giving up leaves `(max_iter, fail)`, a failed call leaves `(n, running)` |
| Orchestrator.RerunAfterRun | scripts/run.py:293-298 | see below |

Rows whose third column says "see below":

- **Intake.IntakeProperties.**
  - When `criteria.md` exists, intake returns it and changes nothing.
  - Otherwise it runs at most `max_intake_iter` chained rounds and stops
    only at the first approval or when the rounds run out.
  - It makes exactly its rounds' calls.
  - It locks the last draft into `criteria.md`, and "" when no round ran.
  - A failed call leaves no `criteria.md`.
- **IterationShape.IterationsProperties.**
  - It visits `start`, `start + 1`, … in order.
  - Each worker sees the file's feedback plus the entries appended so far.
  - Outputs are reused exactly when they existed, and blocked outputs are
    not judged.
  - Outputs and verdicts stay recorded.
  - `feedback.md` and the in-memory feedback grow by exactly the entries.
  - It makes exactly the attempts' calls.
  - It ends in one of three ways, each with its own state and final output:
    all iterations run, the first pass, or the failed call.
- **Orchestrator.TerminalShortCircuit.**
  - No task anywhere changes nothing.
  - With a stored `pass`/`fail`, only `task.md` is rewritten, with no agent
    call and no state change.
- **Orchestrator.GiveUpWritesBest.**
  - The final output is the best attempt's output, and the state is
    `(max_iter, fail)`.
  - No other file changes.
- **Orchestrator.RerunAfterRun.**
  - After a pass or a give-up, the next invocation, whether given `--task` or
    reading `task.md`, only rewrites `task.md` with that task.
  - After a failed call in iteration n, the next invocation starts at
    n + 1.

## Left out

- `call_agent`'s subprocess, its JSON decoding and its timeouts. A call is
  an opaque reply or a failure.
- A failed call ends the model's run the way the uncaught exception ends
  the real one. Nothing after it happens.
- Prompt texts and templates, and session ids. The model's calls record
  only what each prompt is built from.
- `notify`, `log` and all printing. They do not change the workspace.
- The 30-second sleep is a step in the user's sequence of observations.
- Clock timestamps are the parameter `stamp`.
- `argparse`, the workspace `mkdir`, the `--workspace`, `--session-key`,
  `--channel` and timeout options, and the exit status of a missing task
  (the `NoTask` ending).
- `state.json` is a typed record, not JSON text.
- Only the `iteration` and `status` keys of `state.json` are modelled.
- A hand-edited state with other keys or values is not.
- The `iter-*` glob is the iterations 1 to 99 in numeric order. Directories
  numbered 100 or more, and stray `iter-*` names, are not scanned
  (`Workspace.GlobOrderBreaksAtHundred` shows why).
- Directories without `verdict.md` are the same as ones without a score.
- Python's `\d` also matches non-ASCII decimal digits. The model accepts
  only `0`–`9`.
- Case folding covers ASCII plus the four non-ASCII characters that fold
  onto ASCII letters. No other Unicode is modelled.
- Files are text. UTF-8 encoding and write atomicity are not modelled.
- The iteration log line with the score (`scripts/run.py:247-249`) only
  feeds `log`. The score parser is modelled; the message is not.
- The final notification, including the best verdict it quotes
  (`scripts/run.py:353-363`), only reads files and messages the user.
