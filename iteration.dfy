/**
 * The worker/judge loop of `main`: for each iteration the run saves a running
 * state, obtains the worker's output (reusing `iter-NN/output.md` when it
 * exists), skips the judge for a `[BLOCKED]` output, stops at a pass, and
 * otherwise appends the iteration's gaps to `feedback.md` and to the feedback
 * the next worker sees.
 */
module Iteration {
  import opened Wrappers
  import opened Text
  import opened Verdict
  import opened Workspace
  import opened Environment

  const Blocked := "[BLOCKED]"
  const BlockedPrefix := "Worker was blocked:\n"
  const FirstAttempt := "(none \U{2014} this is the first attempt)"

  /** What fills `{{FEEDBACK}}` in the worker prompt: the stripped feedback, or the first-attempt note when it is blank. */
  function WorkerFeedback(feedback: string): (r: string)
    ensures AllSpace(feedback) ==> r == FirstAttempt
    ensures !AllSpace(feedback) ==> r == Strip(feedback) && r != []
  {
    StripEmptyIff(feedback);
    if Strip(feedback) == "" then FirstAttempt else Strip(feedback)
  }

  /**
   * One iteration that got past its agent calls: its number, the feedback
   * its worker was given, the output, whether the output was an existing
   * file, and the judge's reply (`None` when the output was blocked).
   */
  datatype Attempt = Attempt(iteration: int, feedback: string, output: string, reused: bool, verdict: Option<string>)

  predicate Passed(a: Attempt) {
    a.verdict.Some? && IsPass(a.verdict.value)
  }

  /** The gaps an attempt reports: the blocked output under its prefix, or the judge's gap summary. */
  function Gaps(a: Attempt): string {
    match a.verdict
    case None => BlockedPrefix + a.output
    case Some(verdict) => ExtractGaps(verdict)
  }

  /** A feedback entry: a level-two heading naming the iteration and the time, then the gaps and a newline. */
  function GapEntry(n: int, timestamp: string, gaps: string): (r: string)
    ensures |r| > |NextHeading| + |gaps| && PrefixAt(r, 0, NextHeading)
    ensures r[|r| - |gaps| - 1..] == gaps + "\n"
  {
    var head := "\n## Iteration " + ShowInt(n) + " gaps (" + timestamp + ")\n";
    assert head[..4] == NextHeading;
    var r := head + gaps + "\n";
    assert r[..4] == head[..4];
    assert r[|head|..] == gaps + "\n";
    r
  }

  /** What an attempt appends to the feedback: nothing when it passed or left no gaps. */
  function Entry(a: Attempt, stamp: int -> string): string {
    if Passed(a) || Gaps(a) == "" then "" else GapEntry(a.iteration, stamp(a.iteration), Gaps(a))
  }

  function Entries(attempts: seq<Attempt>, stamp: int -> string): string {
    if attempts == [] then "" else Entries(attempts[..|attempts| - 1], stamp) + Entry(attempts[|attempts| - 1], stamp)
  }

  /** The agent calls of an attempt: the worker unless the output was reused, the judge unless it was blocked. */
  function AttemptCalls(a: Attempt, maxIter: int, task: string, criteria: string): seq<Call> {
    (if a.reused then [] else [Worker(a.iteration, maxIter, task, criteria, WorkerFeedback(a.feedback))])
      + (if a.verdict.Some? then [Judge(a.iteration, maxIter, criteria, a.output)] else [])
  }

  function LoopCalls(attempts: seq<Attempt>, maxIter: int, task: string, criteria: string): seq<Call> {
    if attempts == [] then []
    else LoopCalls(attempts[..|attempts| - 1], maxIter, task, criteria) + AttemptCalls(attempts[|attempts| - 1], maxIter, task, criteria)
  }

  // ---------------------------------------------------------------------------
  // One iteration on a world

  /** `run_worker`: the existing `iter-NN/output.md`, or the worker's reply written there; `None` when the call fails. */
  function WorkerSpec(w: World, task: string, criteria: string, feedback: string, n: int, maxIter: int): (World, Option<string>) {
    if IterOutput(n) in w.files then (w, Some(w.files[IterOutput(n)]))
    else
      var (w1, reply) := Ask(w, Worker(n, maxIter, task, criteria, WorkerFeedback(feedback)));
      if reply.None? then (w1, None) else (Put(w1, IterOutput(n), reply.value), reply)
  }

  /** `run_judge`: the judge's reply, written to `iter-NN/verdict.md`; `None` when the call fails. */
  function JudgeSpec(w: World, criteria: string, output: string, n: int, maxIter: int): (World, Option<string>) {
    var (w1, reply) := Ask(w, Judge(n, maxIter, criteria, output));
    if reply.None? then (w1, None) else (Put(w1, IterVerdict(n), reply.value), reply)
  }

  /** Appending an entry to `feedback.md`; an empty entry leaves the workspace alone. */
  function Log(w: World, entry: string): World {
    if entry == "" then w else w.(files := w.files[Feedback := Read(w.files, Feedback) + entry])
  }

  /** How an attempt that got past its calls ends the iteration: a pass is final, anything else is logged. */
  function Settle(w: World, a: Attempt, stamp: int -> string): (World, Option<Attempt>) {
    if Passed(a) then (w.(files := w.files[FinalOutput := a.output], state := Some(State(a.iteration, Pass))), Some(a))
    else (Log(w, Entry(a, stamp)), Some(a))
  }

  /** The iteration after the worker produced `output`: a blocked output skips the judge. */
  function AfterWorker(w: World, criteria: string, n: int, maxIter: int, feedback: string, stamp: int -> string,
                       output: string, reused: bool): (World, Option<Attempt>)
  {
    if Contains(output, Blocked) then Settle(w, Attempt(n, feedback, output, reused, None), stamp)
    else
      var (w1, verdict) := JudgeSpec(w, criteria, output, n, maxIter);
      if verdict.None? then (w1, None)
      else Settle(w1, Attempt(n, feedback, output, reused, verdict), stamp)
  }

  /** The body of the loop for iteration `n`; `None` when an agent call fails. */
  function IterationStep(w: World, task: string, criteria: string, n: int, maxIter: int, feedback: string,
                         stamp: int -> string): (World, Option<Attempt>)
  {
    var (w1, output) := WorkerSpec(w.(state := Some(State(n, Running))), task, criteria, feedback, n, maxIter);
    if output.None? then (w1, None)
    else AfterWorker(w1, criteria, n, maxIter, feedback, stamp, output.value, IterOutput(n) in w.files)
  }

  /** How the loop ended: every iteration ran, an iteration passed, or an agent call failed in an iteration. */
  datatype End = Exhausted | PassedAt(iteration: int) | AbortedAt(iteration: int)

  /** The world, the attempts made, the in-memory feedback, and how the loop ended. */
  datatype LoopResult = LoopResult(world: World, attempts: seq<Attempt>, feedback: string, end: End)

  /** Iterations `n` to `maxIter`, after `attempts`. */
  function IterLoop(w: World, task: string, criteria: string, n: int, maxIter: int, feedback: string,
                    stamp: int -> string, attempts: seq<Attempt>): LoopResult
    decreases if n <= maxIter then maxIter - n + 1 else 0
  {
    if n > maxIter then LoopResult(w, attempts, feedback, Exhausted)
    else
      var (w1, a) := IterationStep(w, task, criteria, n, maxIter, feedback, stamp);
      if a.None? then LoopResult(w1, attempts, feedback, AbortedAt(n))
      else if Passed(a.value) then LoopResult(w1, attempts + [a.value], feedback, PassedAt(n))
      else IterLoop(w1, task, criteria, n + 1, maxIter, feedback + Entry(a.value, stamp), stamp, attempts + [a.value])
  }

  /** One step of the loop, with the iteration's world and attempt named. */
  lemma IterLoopUnfold(w: World, task: string, criteria: string, n: int, maxIter: int, feedback: string,
                       stamp: int -> string, attempts: seq<Attempt>) returns (w1: World, a: Option<Attempt>)
    requires n <= maxIter
    ensures (w1, a) == IterationStep(w, task, criteria, n, maxIter, feedback, stamp)
    ensures IterLoop(w, task, criteria, n, maxIter, feedback, stamp, attempts)
        == if a.None? then LoopResult(w1, attempts, feedback, AbortedAt(n))
           else if Passed(a.value) then LoopResult(w1, attempts + [a.value], feedback, PassedAt(n))
           else IterLoop(w1, task, criteria, n + 1, maxIter, feedback + Entry(a.value, stamp), stamp, attempts + [a.value])
  {
    w1, a := IterationStep(w, task, criteria, n, maxIter, feedback, stamp).0, IterationStep(w, task, criteria, n, maxIter, feedback, stamp).1;
  }

  // ---------------------------------------------------------------------------
  // The loop as the orchestrator runs it

  /** `run_worker`. */
  method RunWorker(ws: Store, agent: Agent, ghost human: Human, task: string, criteria: string, feedback: string,
                   n: int, maxIter: int) returns (output: Option<string>)
    modifies ws, agent
    ensures (Snap(ws, agent, human), output) == WorkerSpec(old(Snap(ws, agent, human)), task, criteria, feedback, n, maxIter)
  {
    if IterOutput(n) in ws.files {
      return Some(ws.files[IterOutput(n)]);
    }
    output := agent.Invoke(Worker(n, maxIter, task, criteria, WorkerFeedback(feedback)));
    if output.Some? {
      ws.Write(IterOutput(n), output.value);
    }
  }

  /** `run_judge`: the reply and whether it reports a pass. */
  method RunJudge(ws: Store, agent: Agent, ghost human: Human, criteria: string, output: string,
                  n: int, maxIter: int) returns (verdict: Option<string>, isPass: bool)
    modifies ws, agent
    ensures (Snap(ws, agent, human), verdict) == JudgeSpec(old(Snap(ws, agent, human)), criteria, output, n, maxIter)
    ensures isPass <==> verdict.Some? && IsPass(verdict.value)
  {
    verdict := agent.Invoke(Judge(n, maxIter, criteria, output));
    if verdict.None? {
      return None, false;
    }
    ws.Write(IterVerdict(n), verdict.value);
    isPass := IsPass(verdict.value);
  }

  /** One iteration of `main`'s loop: the attempt, or `None` when a call failed, and the entry it added to the feedback. */
  method RunIteration(ws: Store, agent: Agent, ghost human: Human, task: string, criteria: string, n: int, maxIter: int,
                      feedback: string, stamp: int -> string) returns (attempt: Option<Attempt>, entry: string)
    modifies ws, agent
    ensures (Snap(ws, agent, human), attempt) == IterationStep(old(Snap(ws, agent, human)), task, criteria, n, maxIter, feedback, stamp)
    ensures entry == if attempt.Some? then Entry(attempt.value, stamp) else ""
  {
    var reused := IterOutput(n) in ws.files;
    ws.SaveState(State(n, Running));
    var output := RunWorker(ws, agent, human, task, criteria, feedback, n, maxIter);
    if output.None? {
      return None, "";
    }
    attempt, entry := FinishIteration(ws, agent, human, criteria, n, maxIter, feedback, stamp, output.value, reused);
  }

  /** The rest of the iteration once the worker's output is in: the judge unless it is blocked, then a pass or the gaps. */
  method FinishIteration(ws: Store, agent: Agent, ghost human: Human, criteria: string, n: int, maxIter: int,
                         feedback: string, stamp: int -> string, output: string, reused: bool)
    returns (attempt: Option<Attempt>, entry: string)
    modifies ws, agent
    ensures (Snap(ws, agent, human), attempt)
         == AfterWorker(old(Snap(ws, agent, human)), criteria, n, maxIter, feedback, stamp, output, reused)
    ensures entry == if attempt.Some? then Entry(attempt.value, stamp) else ""
  {
    var gaps: string;
    if Contains(output, Blocked) {
      attempt := Some(Attempt(n, feedback, output, reused, None));
      gaps := BlockedPrefix + output;
    } else {
      var verdict, isPass := RunJudge(ws, agent, human, criteria, output, n, maxIter);
      if verdict.None? {
        return None, "";
      }
      attempt := Some(Attempt(n, feedback, output, reused, verdict));
      if isPass {
        ws.Write(FinalOutput, output);
        ws.SaveState(State(n, Pass));
        return attempt, "";
      }
      gaps := ExtractGaps(verdict.value);
    }
    assert gaps == Gaps(attempt.value) && !Passed(attempt.value);
    entry := LogGaps(ws, agent, human, n, gaps, stamp);
  }

  /** Appending iteration `n`'s gaps to `feedback.md` when there are any; the entry appended. */
  method LogGaps(ws: Store, agent: Agent, ghost human: Human, n: int, gaps: string, stamp: int -> string)
    returns (entry: string)
    modifies ws
    ensures entry == if gaps == "" then "" else GapEntry(n, stamp(n), gaps)
    ensures Snap(ws, agent, human) == Log(old(Snap(ws, agent, human)), entry)
  {
    entry := "";
    if gaps != "" {
      entry := GapEntry(n, stamp(n), gaps);
      ws.Append(Feedback, entry);
    }
  }

  /** One pass of the loop body, with what it means for the rest of the loop. */
  method LoopBody(ws: Store, agent: Agent, ghost human: Human, task: string, criteria: string, n: int, maxIter: int,
                  feedback: string, stamp: int -> string, ghost attempts: seq<Attempt>, ghost goal: LoopResult)
    returns (attempt: Option<Attempt>, entry: string, next: int)
    requires n <= maxIter
    requires IterLoop(Snap(ws, agent, human), task, criteria, n, maxIter, feedback, stamp, attempts) == goal
    modifies ws, agent
    ensures attempt.None? ==> goal == LoopResult(Snap(ws, agent, human), attempts, feedback, AbortedAt(n))
    ensures attempt.Some? && Passed(attempt.value) ==>
      goal == LoopResult(Snap(ws, agent, human), attempts + [attempt.value], feedback, PassedAt(n))
    ensures attempt.Some? && !Passed(attempt.value) ==>
      IterLoop(Snap(ws, agent, human), task, criteria, next, maxIter, feedback + entry, stamp, attempts + [attempt.value]) == goal
    ensures next == n + 1
  {
    ghost var w := Snap(ws, agent, human);
    attempt, entry := RunIteration(ws, agent, human, task, criteria, n, maxIter, feedback, stamp);
    ghost var _, _ := IterLoopUnfold(w, task, criteria, n, maxIter, feedback, stamp, attempts);
    next := n + 1;
  }

  /** `main`'s loop over iterations `start` to `maxIter`, with the feedback read from `feedback.md`. */
  method RunIterations(ws: Store, agent: Agent, ghost human: Human, task: string, criteria: string, start: int, maxIter: int,
                       feedback: string, stamp: int -> string) returns (end: End, finalFeedback: string)
    modifies ws, agent
    ensures var r := IterLoop(old(Snap(ws, agent, human)), task, criteria, start, maxIter, feedback, stamp, []);
      Snap(ws, agent, human) == r.world && end == r.end && finalFeedback == r.feedback
  {
    ghost var goal := IterLoop(Snap(ws, agent, human), task, criteria, start, maxIter, feedback, stamp, []);
    ghost var attempts: seq<Attempt> := [];
    finalFeedback := feedback;
    var n := start;
    while n <= maxIter
      invariant IterLoop(Snap(ws, agent, human), task, criteria, n, maxIter, finalFeedback, stamp, attempts) == goal
      decreases maxIter - n
    {
      var attempt, entry, next := LoopBody(ws, agent, human, task, criteria, n, maxIter, finalFeedback, stamp, attempts, goal);
      if attempt.None? {
        return AbortedAt(n), finalFeedback;
      }
      attempts := attempts + [attempt.value];
      if Passed(attempt.value) {
        return PassedAt(n), finalFeedback;
      }
      finalFeedback := finalFeedback + entry;
      n := next;
    }
    end := Exhausted;
  }
}
