/**
 * `main`: one invocation of the orchestrator on a workspace. It settles the
 * task text, refuses to do anything more in a workspace whose stored status
 * is terminal, runs intake, runs the worker/judge loop from the iteration
 * after the stored one, and, when every iteration has failed, writes the best
 * attempt as the final output and marks the run failed.
 */
module Orchestrator {
  import opened Wrappers
  import opened Workspace
  import opened Environment
  import opened Intake
  import opened Iteration
  import opened IterationShape
  import opened Selection

  /** The command-line arguments that matter here: `--task`, `--max-iter` and `--max-intake-iter`. */
  datatype Config = Config(task: string, maxIter: int, maxIntake: int)

  /** How an invocation ends. */
  datatype Ending =
    | NoTask                      // no task given and no task.md: exit status 1
    | AlreadyDone(status: Status) // the stored status was terminal
    | IntakeAborted               // an agent call failed during intake
    | IterationAborted(at: int)   // an agent call failed during iteration `at`
    | PassedOn(iteration: int)    // the judge passed iteration `iteration`
    | BestOf(iteration: int)      // no pass: iteration `iteration` was the best attempt

  /** `--task`, or else the contents of `task.md`. */
  function TaskText(w: World, cfg: Config): string {
    if cfg.task != "" then cfg.task else Read(w.files, Task)
  }

  /** The first iteration this invocation runs: the one after the stored iteration. */
  function ResumeStart(st: State): int {
    st.iteration + 1
  }

  /** After the loop ran out of iterations: the best attempt becomes the final output and the run is marked failed. */
  function GiveUp(w: World, maxIter: int): (World, Ending) {
    var (best, output) := Best(w.files);
    (Put(w, FinalOutput, output).(state := Some(State(maxIter, Fail))), BestOf(best))
  }

  /** The loop, from `start`, with the feedback read from `feedback.md`, and what follows it. */
  function LoopSpec(w: World, task: string, criteria: string, start: int, maxIter: int, stamp: int -> string): (World, Ending) {
    Conclude(IterLoop(w, task, criteria, start, maxIter, Read(w.files, Feedback), stamp, []), maxIter)
  }

  /** How the loop's end is reported; running out of iterations gives up on the best attempt. */
  function Conclude(r: LoopResult, maxIter: int): (World, Ending) {
    match r.end
    case AbortedAt(n) => (r.world, IterationAborted(n))
    case PassedAt(n) => (r.world, PassedOn(n))
    case Exhausted => GiveUp(r.world, maxIter)
  }

  /** Intake, then the loop; the workers see `task` as given, not as clarification extended it. */
  function ProceedSpec(w: World, task: string, cfg: Config, start: int, stamp: int -> string): (World, Ending) {
    var intake := RunIntakeSpec(w, task, cfg.maxIntake);
    if !intake.ok then (intake.world, IntakeAborted)
    else LoopSpec(intake.world, task, intake.criteria, start, cfg.maxIter, stamp)
  }

  /** `main` on a world: the world afterwards and how the invocation ended. */
  function RunSpec(w: World, cfg: Config, stamp: int -> string): (World, Ending) {
    var task := TaskText(w, cfg);
    if task == "" then (w, NoTask)
    else ResumeSpec(Put(w, Task, task), task, cfg, stamp)
  }

  /** After `task.md` is written: stop on a terminal status, otherwise go on from the iteration after the stored one. */
  function ResumeSpec(w: World, task: string, cfg: Config, stamp: int -> string): (World, Ending) {
    var st := LoadState(w.state);
    if Finished(st) then (w, AlreadyDone(st.status))
    else ProceedSpec(w, task, cfg, ResumeStart(st), stamp)
  }

  /** `main`, with `stamp(n)` the time written into iteration `n`'s feedback entry. */
  method Run(ws: Store, agent: Agent, human: Human, cfg: Config, stamp: int -> string) returns (outcome: Ending)
    modifies ws, agent, human
    ensures (Snap(ws, agent, human), outcome) == RunSpec(old(Snap(ws, agent, human)), cfg, stamp)
  {
    var task := if cfg.task != "" then cfg.task else Read(ws.files, Task);
    if task == "" {
      return NoTask;
    }
    ws.Write(Task, task);
    outcome := Resume(ws, agent, human, task, cfg, stamp);
  }

  /** The status check and what follows it. */
  method Resume(ws: Store, agent: Agent, human: Human, task: string, cfg: Config, stamp: int -> string) returns (outcome: Ending)
    modifies ws, agent, human
    ensures (Snap(ws, agent, human), outcome) == ResumeSpec(old(Snap(ws, agent, human)), task, cfg, stamp)
  {
    var st := LoadState(ws.state);
    if Finished(st) {
      return AlreadyDone(st.status);
    }
    outcome := Proceed(ws, agent, human, task, cfg, ResumeStart(st), stamp);
  }

  /** Everything after the status check. */
  method Proceed(ws: Store, agent: Agent, human: Human, task: string, cfg: Config, start: int, stamp: int -> string)
    returns (outcome: Ending)
    modifies ws, agent, human
    ensures (Snap(ws, agent, human), outcome) == ProceedSpec(old(Snap(ws, agent, human)), task, cfg, start, stamp)
  {
    var ok, criteria := RunIntake(ws, agent, human, task, cfg.maxIntake);
    if !ok {
      return IntakeAborted;
    }
    outcome := Loop(ws, agent, human, task, criteria, start, cfg.maxIter, stamp);
  }

  /** The loop and, when it runs out of iterations, the best attempt. */
  method Loop(ws: Store, agent: Agent, ghost human: Human, task: string, criteria: string, start: int, maxIter: int,
              stamp: int -> string) returns (outcome: Ending)
    modifies ws, agent
    ensures (Snap(ws, agent, human), outcome) == LoopSpec(old(Snap(ws, agent, human)), task, criteria, start, maxIter, stamp)
  {
    var feedback := Read(ws.files, Feedback);
    var end, _ := RunIterations(ws, agent, human, task, criteria, start, maxIter, feedback, stamp);
    match end
    case AbortedAt(n) => outcome := IterationAborted(n);
    case PassedAt(n) => outcome := PassedOn(n);
    case Exhausted =>
      var best, output := FindBestIteration(ws);
      ws.Write(FinalOutput, output);
      ws.SaveState(State(maxIter, Fail));
      outcome := BestOf(best);
  }

  // ---------------------------------------------------------------------------
  // What `main` guarantees

  /**
   * With no task anywhere, nothing changes. In a workspace whose stored status
   * is `pass` or `fail`, `main` only rewrites `task.md`: no intake, no agent
   * call, no wait for the human, and the stored state stays as it was.
   */
  lemma TerminalShortCircuit(w: World, cfg: Config, stamp: int -> string)
    ensures TaskText(w, cfg) == "" ==> RunSpec(w, cfg, stamp) == (w, NoTask)
    ensures TaskText(w, cfg) != "" && w.state.Some? && Finished(w.state.value) ==>
      && RunSpec(w, cfg, stamp).1 == AlreadyDone(w.state.value.status)
      && RunSpec(w, cfg, stamp).0 == w.(files := w.files[Task := TaskText(w, cfg)])
  {
  }

  /**
   * When every iteration fails, the final output is the best attempt's output
   * and the state is the last iteration, failed; the reported iteration is the
   * first with the highest score, or 1 with an empty output when no verdict
   * has a score.
   */
  lemma GiveUpWritesBest(w: World, maxIter: int)
    ensures var (w1, outcome) := GiveUp(w, maxIter);
      && outcome.BestOf?
      && IsBest(w.files, outcome.iteration, Read(w1.files, FinalOutput))
      && w1.state == Some(State(maxIter, Fail))
      && w1.files == w.files[FinalOutput := Read(w1.files, FinalOutput)]
      && w1.calls == w.calls && w1.replies == w.replies && w1.answers == w.answers
  {
    BestIsBest(w.files);
  }

  /**
   * Resuming at or past `--max-iter` runs no iteration at all, yet still writes
   * the best attempt and marks the run failed at `--max-iter`.
   */
  lemma NothingLeftToRun(w: World, task: string, criteria: string, start: int, maxIter: int, stamp: int -> string)
    requires maxIter < start
    ensures LoopSpec(w, task, criteria, start, maxIter, stamp) == GiveUp(w, maxIter)
    ensures LoopSpec(w, task, criteria, start, maxIter, stamp).0.calls == w.calls
  {
  }

  /**
   * The loop part of `main`: the loop's guarantees hold from the world intake
   * left, starting at the stored iteration + 1; a pass is reported with the
   * passing iteration saved as passed; a failed agent call is reported with
   * its iteration saved as running; and when the iterations run out, the best
   * of them is reported and written.
   */
  lemma LoopProperties(w: World, task: string, criteria: string, start: int, maxIter: int, stamp: int -> string)
    ensures var r := IterLoop(w, task, criteria, start, maxIter, Read(w.files, Feedback), stamp, []);
      var (w1, outcome) := LoopSpec(w, task, criteria, start, maxIter, stamp);
      && LoopShape(w, task, criteria, start, maxIter, Read(w.files, Feedback), stamp, r)
      && (outcome.IterationAborted? <==> r.end.AbortedAt?)
      && (outcome.IterationAborted? ==> w1.state == Some(State(outcome.at, Running)) && start <= outcome.at <= maxIter)
      && (outcome.PassedOn? <==> r.end.PassedAt?)
      && (outcome.PassedOn? ==> w1.state == Some(State(outcome.iteration, Pass)) && start <= outcome.iteration <= maxIter)
      && (outcome.BestOf? <==> r.end.Exhausted?)
      && (outcome.BestOf? ==> (w1, outcome) == GiveUp(r.world, maxIter))
  {
    var r := IterLoop(w, task, criteria, start, maxIter, Read(w.files, Feedback), stamp, []);
    IterationsProperties(w, task, criteria, start, maxIter, stamp);
    ConcludeFacts(w, task, criteria, start, maxIter, Read(w.files, Feedback), stamp, r);
  }

  /** What the report of a loop result says, for any result with the loop's shape. */
  lemma ConcludeFacts(w: World, task: string, criteria: string, start: int, maxIter: int, feedback0: string,
                      stamp: int -> string, r: LoopResult)
    requires LoopShape(w, task, criteria, start, maxIter, feedback0, stamp, r)
    ensures var (w1, outcome) := Conclude(r, maxIter);
      && (outcome.IterationAborted? <==> r.end.AbortedAt?)
      && (outcome.IterationAborted? ==> w1.state == Some(State(outcome.at, Running)) && start <= outcome.at <= maxIter)
      && (outcome.PassedOn? <==> r.end.PassedAt?)
      && (outcome.PassedOn? ==> w1.state == Some(State(outcome.iteration, Pass)) && start <= outcome.iteration <= maxIter)
      && (outcome.BestOf? <==> r.end.Exhausted?)
      && (outcome.BestOf? ==> (w1, outcome) == GiveUp(r.world, maxIter))
  {
  }

  /**
   * The state an invocation leaves behind: the passing iteration marked
   * passed, `--max-iter` marked failed after giving up, or the iteration whose
   * agent call failed still marked running.
   */
  lemma RunLeavesState(w: World, cfg: Config, stamp: int -> string)
    ensures var (w1, outcome) := RunSpec(w, cfg, stamp);
      && (outcome.PassedOn? ==> w1.state == Some(State(outcome.iteration, Pass)))
      && (outcome.BestOf? ==> w1.state == Some(State(cfg.maxIter, Fail)))
      && (outcome.IterationAborted? ==> w1.state == Some(State(outcome.at, Running)))
  {
    var task := TaskText(w, cfg);
    if task != "" {
      var w1 := Put(w, Task, task);
      if !Finished(LoadState(w1.state)) {
        var intake := RunIntakeSpec(w1, task, cfg.maxIntake);
        if intake.ok {
          LoopProperties(intake.world, task, intake.criteria, ResumeStart(LoadState(w1.state)), cfg.maxIter, stamp);
        }
      }
    }
  }

  /**
   * A run that passed or gave up leaves a terminal state behind, so the next
   * invocation on the workspace, whether given `--task` or reading `task.md`,
   * does nothing but rewrite `task.md`; a run that stopped on a failed agent
   * call leaves the failed iteration saved as running, so the next invocation
   * starts after it.
   */
  lemma RerunAfterRun(w: World, cfg: Config, stamp: int -> string, cfg2: Config, stamp2: int -> string)
    ensures var (w1, outcome) := RunSpec(w, cfg, stamp);
      var task2 := TaskText(w1, cfg2);
      && ((outcome.PassedOn? || outcome.BestOf?) && task2 != "" ==>
            RunSpec(w1, cfg2, stamp2) == (w1.(files := w1.files[Task := task2]), AlreadyDone(if outcome.PassedOn? then Pass else Fail)))
      && (outcome.IterationAborted? ==> ResumeStart(LoadState(w1.state)) == outcome.at + 1)
  {
    RunLeavesState(w, cfg, stamp);
  }
}
