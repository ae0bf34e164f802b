/**
 * What the worker/judge loop guarantees: the iterations it runs, the feedback
 * each worker sees, what it appends to `feedback.md`, the agent calls it
 * makes, and the state and final output it leaves for each way it can end.
 */
module IterationShape {
  import opened Wrappers
  import opened Text
  import opened Workspace
  import opened Environment
  import opened Util
  import opened Iteration

  // ---------------------------------------------------------------------------
  // One iteration

  /**
   * One iteration touches only its own output and verdict files, `feedback.md`
   * and `final-output.md`, and leaves the state at iteration `n`, running
   * unless it passed. A completed attempt is the one `StepDone` describes; a
   * pass writes its output as the final output, and otherwise
   * `final-output.md` is left alone. A failed call leaves `feedback.md` alone.
   */
  lemma IterationStepFacts(w: World, task: string, criteria: string, n: int, maxIter: int, feedback: string,
                           stamp: int -> string)
    returns (w1: World, a: Option<Attempt>)
    ensures (w1, a) == IterationStep(w, task, criteria, n, maxIter, feedback, stamp)
    ensures SameExcept(w.files, w1.files, StepFiles(n))
    ensures a.None? ==>
      && w1.state == Some(State(n, Running))
      && Read(w1.files, Feedback) == Read(w.files, Feedback)
      && Read(w1.files, FinalOutput) == Read(w.files, FinalOutput)
    ensures a.Some? ==> StepDone(w, w1, task, criteria, n, maxIter, feedback, stamp, a.value)
    ensures a.Some? && Passed(a.value) ==>
      && w1.state == Some(State(n, Pass))
      && FinalOutput in w1.files && w1.files[FinalOutput] == a.value.output
    ensures a.Some? && !Passed(a.value) ==>
      && w1.state == Some(State(n, Running))
      && Read(w1.files, FinalOutput) == Read(w.files, FinalOutput)
  {
    var reused := IterOutput(n) in w.files;
    var (wa, output) := WorkerSpec(w.(state := Some(State(n, Running))), task, criteria, feedback, n, maxIter);
    WorkerFacts(w, task, criteria, n, maxIter, feedback);
    var wc := if reused then [] else [Worker(n, maxIter, task, criteria, WorkerFeedback(feedback))];
    if output.None? {
      w1, a := wa, None;
    } else {
      AfterWorkerFacts(w.files, wa, criteria, n, maxIter, feedback, stamp, output.value, reused);
      w1, a := AfterWorker(wa, criteria, n, maxIter, feedback, stamp, output.value, reused).0,
               AfterWorker(wa, criteria, n, maxIter, feedback, stamp, output.value, reused).1;
      if a.Some? {
        var jc := if a.value.verdict.Some? then [Judge(n, maxIter, criteria, output.value)] else [];
        assert AttemptCalls(a.value, maxIter, task, criteria) == wc + jc;
        AppendAssoc(w.calls, wc, jc);
      }
    }
  }

  /** The worker step: an existing output is reused without a call; otherwise the reply is written to `iter-NN/output.md`. */
  lemma WorkerFacts(w: World, task: string, criteria: string, n: int, maxIter: int, feedback: string)
    ensures var (wa, output) := WorkerSpec(w.(state := Some(State(n, Running))), task, criteria, feedback, n, maxIter);
      var reused := IterOutput(n) in w.files;
      && wa.calls == w.calls + (if reused then [] else [Worker(n, maxIter, task, criteria, WorkerFeedback(feedback))])
      && wa.state == Some(State(n, Running))
      && SameExcept(w.files, wa.files, StepFiles(n))
      && Read(wa.files, Feedback) == Read(w.files, Feedback)
      && Read(wa.files, FinalOutput) == Read(w.files, FinalOutput)
      && (reused ==> output == Some(w.files[IterOutput(n)]))
      && (output.Some? ==> Read(wa.files, IterOutput(n)) == output.value)
  {
    if IterOutput(n) in w.files {
      KeepsAll(w.files, n);
    } else {
      var (wa, output) := WorkerSpec(w.(state := Some(State(n, Running))), task, criteria, feedback, n, maxIter);
      if output.Some? {
        Updates(w.files, IterOutput(n), output.value, n);
      } else {
        KeepsAll(w.files, n);
      }
    }
  }

  /** After the worker: the judge runs exactly when the output is not blocked, and the attempt settles. */
  lemma AfterWorkerFacts(files0: Files, w: World, criteria: string, n: int, maxIter: int, feedback: string,
                         stamp: int -> string, output: string, reused: bool)
    requires SameExcept(files0, w.files, StepFiles(n)) && Read(w.files, IterOutput(n)) == output
    ensures var (w1, r) := AfterWorker(w, criteria, n, maxIter, feedback, stamp, output, reused);
      && SameExcept(files0, w1.files, StepFiles(n))
      && (r.None? ==>
            && w1.state == w.state
            && Read(w1.files, Feedback) == Read(w.files, Feedback)
            && Read(w1.files, FinalOutput) == Read(w.files, FinalOutput))
      && (r.Some? ==>
            && r.value.iteration == n && r.value.feedback == feedback
            && r.value.output == output && r.value.reused == reused
            && (r.value.verdict.None? <==> Contains(output, Blocked))
            && Read(w1.files, IterOutput(n)) == output
            && (r.value.verdict.Some? ==> Read(w1.files, IterVerdict(n)) == r.value.verdict.value)
            && w1.calls == w.calls + (if r.value.verdict.Some? then [Judge(n, maxIter, criteria, output)] else [])
            && Read(w1.files, Feedback) == Read(w.files, Feedback) + Entry(r.value, stamp)
            && (Passed(r.value) ==>
                  && w1.state == Some(State(n, Pass))
                  && FinalOutput in w1.files && w1.files[FinalOutput] == output)
            && (!Passed(r.value) ==>
                  && w1.state == w.state
                  && Read(w1.files, FinalOutput) == Read(w.files, FinalOutput)))
  {
    if Contains(output, Blocked) {
      SettleFacts(files0, w, Attempt(n, feedback, output, reused, None), stamp, n);
    } else {
      var (wb, verdict) := JudgeSpec(w, criteria, output, n, maxIter);
      if verdict.Some? {
        Updates(w.files, IterVerdict(n), verdict.value, n);
        SameExceptTrans(files0, w.files, wb.files, StepFiles(n));
        SettleFacts(files0, wb, Attempt(n, feedback, output, reused, verdict), stamp, n);
      }
    }
  }

  /** Settling an attempt of iteration `n`: a pass is written as the final output, anything else is logged. */
  lemma SettleFacts(files0: Files, w: World, a: Attempt, stamp: int -> string, n: int)
    requires a.iteration == n && SameExcept(files0, w.files, StepFiles(n))
    ensures var (w1, r) := Settle(w, a, stamp);
      && r == Some(a) && w1.calls == w.calls
      && SameExcept(files0, w1.files, StepFiles(n))
      && Read(w1.files, Feedback) == Read(w.files, Feedback) + Entry(a, stamp)
      && Read(w1.files, IterOutput(n)) == Read(w.files, IterOutput(n))
      && Read(w1.files, IterVerdict(n)) == Read(w.files, IterVerdict(n))
      && (Passed(a) ==> w1.state == Some(State(n, Pass)) && FinalOutput in w1.files && w1.files[FinalOutput] == a.output)
      && (!Passed(a) ==> w1.state == w.state && Read(w1.files, FinalOutput) == Read(w.files, FinalOutput))
  {
    if Passed(a) {
      Updates(w.files, FinalOutput, a.output, n);
      SameExceptTrans(files0, w.files, w.files[FinalOutput := a.output], StepFiles(n));
      assert Read(w.files, Feedback) + Entry(a, stamp) == Read(w.files, Feedback);
    } else {
      LogFacts(files0, w, Entry(a, stamp), n);
    }
  }

  /** The files one iteration may write. */
  function StepFiles(n: int): set<Path> {
    {IterOutput(n), IterVerdict(n), Feedback, FinalOutput}
  }

  lemma KeepsAll(files: Files, n: int)
    ensures SameExcept(files, files, StepFiles(n))
  {
  }

  lemma Updates(files: Files, p: Path, content: string, n: int)
    requires p in StepFiles(n)
    ensures SameExcept(files, files[p := content], StepFiles(n))
  {
  }

  lemma SameExceptTrans(f0: Files, f1: Files, f2: Files, keep: set<Path>)
    requires SameExcept(f0, f1, keep) && SameExcept(f1, f2, keep)
    ensures SameExcept(f0, f2, keep)
  {
  }

  /** Logging an entry appends exactly it to `feedback.md` and touches nothing else. */
  lemma LogFacts(files0: Files, w: World, entry: string, n: int)
    requires SameExcept(files0, w.files, StepFiles(n))
    ensures var w1 := Log(w, entry);
      && SameExcept(files0, w1.files, StepFiles(n))
      && Read(w1.files, Feedback) == Read(w.files, Feedback) + entry
      && w1.state == w.state && w1.calls == w.calls
      && Read(w1.files, FinalOutput) == Read(w.files, FinalOutput)
      && (forall m :: Read(w1.files, IterOutput(m)) == Read(w.files, IterOutput(m)))
      && (forall m :: Read(w1.files, IterVerdict(m)) == Read(w.files, IterVerdict(m)))
  {
    if entry != "" {
      Updates(w.files, Feedback, Read(w.files, Feedback) + entry, n);
      SameExceptTrans(files0, w.files, Log(w, entry).files, StepFiles(n));
    } else {
      assert Read(w.files, Feedback) + entry == Read(w.files, Feedback);
    }
  }

  // ---------------------------------------------------------------------------
  // What the attempts of a loop satisfy

  /** The attempts are iterations `start`, `start + 1`, ... */
  ghost predicate Ascending(attempts: seq<Attempt>, start: int) {
    forall j :: 0 <= j < |attempts| ==> attempts[j].iteration == start + j
  }

  /** Each worker saw the starting feedback followed by the entries of the attempts before it. */
  ghost predicate FedFrom(attempts: seq<Attempt>, feedback0: string, stamp: int -> string) {
    forall j :: 0 <= j < |attempts| ==> attempts[j].feedback == feedback0 + Entries(attempts[..j], stamp)
  }

  /** An output is reused exactly when it existed before the loop, and then it is that file. */
  ghost predicate ReusedIff(attempts: seq<Attempt>, files0: Files) {
    forall j :: 0 <= j < |attempts| ==>
      && (attempts[j].reused <==> IterOutput(attempts[j].iteration) in files0)
      && (attempts[j].reused ==> attempts[j].output == files0[IterOutput(attempts[j].iteration)])
  }

  /** The judge ran exactly for the outputs that were not blocked. */
  ghost predicate JudgedUnlessBlocked(attempts: seq<Attempt>) {
    forall j :: 0 <= j < |attempts| ==> (attempts[j].verdict.None? <==> Contains(attempts[j].output, Blocked))
  }

  /** No attempt passed. */
  ghost predicate NoPass(attempts: seq<Attempt>) {
    forall j :: 0 <= j < |attempts| ==> !Passed(attempts[j])
  }

  /** Each attempt's output, and its verdict when judged, are in its `iter-NN` directory. */
  ghost predicate Recorded(attempts: seq<Attempt>, files: Files) {
    forall j :: 0 <= j < |attempts| ==>
      && Read(files, IterOutput(attempts[j].iteration)) == attempts[j].output
      && (attempts[j].verdict.Some? ==> Read(files, IterVerdict(attempts[j].iteration)) == attempts[j].verdict.value)
  }

  /** The output files of iterations `n` onwards are as they were before the loop. */
  ghost predicate OutputsFrom(files0: Files, files: Files, n: int) {
    forall m :: m >= n ==>
      && (IterOutput(m) in files0 <==> IterOutput(m) in files)
      && (IterOutput(m) in files0 ==> files0[IterOutput(m)] == files[IterOutput(m)])
  }

  function Last(attempts: seq<Attempt>): Attempt
    requires attempts != []
  {
    attempts[|attempts| - 1]
  }

  /** What the loop guarantees, for a loop from `start` on the world `w0` with feedback `feedback0`. */
  ghost predicate LoopShape(w0: World, task: string, criteria: string, start: int, maxIter: int, feedback0: string,
                            stamp: int -> string, r: LoopResult) {
    var attempts := r.attempts;
    && Ascending(attempts, start) && FedFrom(attempts, feedback0, stamp) && ReusedIff(attempts, w0.files)
    && JudgedUnlessBlocked(attempts) && Recorded(attempts, r.world.files)
    && |attempts| <= Max0(maxIter - start + 1)
    && r.feedback == feedback0 + Entries(attempts, stamp)
    && Read(r.world.files, Feedback) == Read(w0.files, Feedback) + Entries(attempts, stamp)
    && match r.end
       case Exhausted =>
         && |attempts| == Max0(maxIter - start + 1) && NoPass(attempts)
         && r.world.calls == w0.calls + LoopCalls(attempts, maxIter, task, criteria)
         && r.world.state == (if attempts == [] then w0.state else Some(State(maxIter, Running)))
         && Read(r.world.files, FinalOutput) == Read(w0.files, FinalOutput)
       case PassedAt(n) =>
         && attempts != [] && n == start + |attempts| - 1 && NoPass(attempts[..|attempts| - 1]) && Passed(Last(attempts))
         && r.world.calls == w0.calls + LoopCalls(attempts, maxIter, task, criteria)
         && r.world.state == Some(State(n, Pass))
         && FinalOutput in r.world.files && r.world.files[FinalOutput] == Last(attempts).output
       case AbortedAt(n) =>
         && n == start + |attempts| && n <= maxIter && NoPass(attempts)
         && r.world.state == Some(State(n, Running))
         && Read(r.world.files, FinalOutput) == Read(w0.files, FinalOutput)
  }

  /** The invariant the loop keeps between iterations, `n - start` attempts in. */
  ghost predicate Between(w0: World, task: string, criteria: string, start: int, maxIter: int, feedback0: string,
                          stamp: int -> string, w: World, n: int, feedback: string, attempts: seq<Attempt>) {
    && start <= n && |attempts| == n - start && n - start <= Max0(maxIter - start + 1)
    && Ascending(attempts, start) && FedFrom(attempts, feedback0, stamp) && ReusedIff(attempts, w0.files)
    && JudgedUnlessBlocked(attempts) && Recorded(attempts, w.files) && NoPass(attempts)
    && OutputsFrom(w0.files, w.files, n)
    && feedback == feedback0 + Entries(attempts, stamp)
    && Read(w.files, Feedback) == Read(w0.files, Feedback) + Entries(attempts, stamp)
    && w.calls == w0.calls + LoopCalls(attempts, maxIter, task, criteria)
    && w.state == (if attempts == [] then w0.state else Some(State(n - 1, Running)))
    && Read(w.files, FinalOutput) == Read(w0.files, FinalOutput)
  }

  // ---------------------------------------------------------------------------
  // The loop keeps its guarantees

  /** Iterations `n` onwards, continuing `n - start` attempts, end in a result of the guaranteed shape. */
  lemma {:induction false} IterLoopShape(w0: World, task: string, criteria: string, start: int, maxIter: int,
                                         feedback0: string, stamp: int -> string,
                                         w: World, n: int, feedback: string, attempts: seq<Attempt>)
    requires Between(w0, task, criteria, start, maxIter, feedback0, stamp, w, n, feedback, attempts)
    decreases if n <= maxIter then maxIter - n + 1 else 0
    ensures LoopShape(w0, task, criteria, start, maxIter, feedback0, stamp,
                      IterLoop(w, task, criteria, n, maxIter, feedback, stamp, attempts))
  {
    if n > maxIter {
      LoopExhausted(w0, task, criteria, start, maxIter, feedback0, stamp, w, n, feedback, attempts);
    } else {
      var w1, a := IterLoopUnfold(w, task, criteria, n, maxIter, feedback, stamp, attempts);
      var _, _ := IterationStepFacts(w, task, criteria, n, maxIter, feedback, stamp);
      if a.None? {
        LoopAborted(w0, task, criteria, start, maxIter, feedback0, stamp, w, n, feedback, attempts, w1);
      } else if Passed(a.value) {
        var _ := Extend(w0, task, criteria, start, maxIter, feedback0, stamp, w, n, feedback, attempts, w1, a.value);
        LoopPassed(w0, task, criteria, start, maxIter, feedback0, stamp, n, feedback, attempts, w1, a.value);
      } else {
        LoopContinues(w0, task, criteria, start, maxIter, feedback0, stamp, w, n, feedback, attempts, w1, a.value);
        IterLoopShape(w0, task, criteria, start, maxIter, feedback0, stamp,
                      w1, n + 1, feedback + Entry(a.value, stamp), attempts + [a.value]);
      }
    }
  }

  /** Past `maxIter` every iteration has run and none passed. */
  lemma LoopExhausted(w0: World, task: string, criteria: string, start: int, maxIter: int, feedback0: string,
                      stamp: int -> string, w: World, n: int, feedback: string, attempts: seq<Attempt>)
    requires Between(w0, task, criteria, start, maxIter, feedback0, stamp, w, n, feedback, attempts)
    requires n > maxIter
    ensures LoopShape(w0, task, criteria, start, maxIter, feedback0, stamp,
                      LoopResult(w, attempts, feedback, Exhausted))
  {
    if attempts != [] {
      assert n - 1 == maxIter;
    }
  }

  /** A failed call ends the loop at iteration `n` with the state it saved. */
  lemma LoopAborted(w0: World, task: string, criteria: string, start: int, maxIter: int, feedback0: string,
                    stamp: int -> string, w: World, n: int, feedback: string, attempts: seq<Attempt>, w1: World)
    requires Between(w0, task, criteria, start, maxIter, feedback0, stamp, w, n, feedback, attempts)
    requires n <= maxIter
    requires SameExcept(w.files, w1.files, StepFiles(n))
    requires w1.state == Some(State(n, Running))
    requires Read(w1.files, Feedback) == Read(w.files, Feedback)
    requires Read(w1.files, FinalOutput) == Read(w.files, FinalOutput)
    ensures LoopShape(w0, task, criteria, start, maxIter, feedback0, stamp,
                      LoopResult(w1, attempts, feedback, AbortedAt(n)))
  {
    RecordedKept(attempts, start, w.files, w1.files, n);
  }

  /** A pass ends the loop with the passing output as the final output. */
  lemma LoopPassed(w0: World, task: string, criteria: string, start: int, maxIter: int, feedback0: string,
                   stamp: int -> string, n: int, feedback: string, attempts: seq<Attempt>, w1: World, a: Attempt)
    requires |attempts| == n - start && n + 1 - start <= Max0(maxIter - start + 1)
    requires NoPass(attempts) && Passed(a)
    requires var rs := attempts + [a];
      && Ascending(rs, start) && FedFrom(rs, feedback0, stamp) && ReusedIff(rs, w0.files)
      && JudgedUnlessBlocked(rs) && Recorded(rs, w1.files)
      && feedback + Entry(a, stamp) == feedback0 + Entries(rs, stamp)
      && Read(w1.files, Feedback) == Read(w0.files, Feedback) + Entries(rs, stamp)
      && w1.calls == w0.calls + LoopCalls(rs, maxIter, task, criteria)
    requires w1.state == Some(State(n, Pass)) && FinalOutput in w1.files && w1.files[FinalOutput] == a.output
    ensures LoopShape(w0, task, criteria, start, maxIter, feedback0, stamp,
                      LoopResult(w1, attempts + [a], feedback, PassedAt(n)))
  {
    var rs := attempts + [a];
    assert rs[..|rs| - 1] == attempts;
    assert feedback + Entry(a, stamp) == feedback;
  }

  /** An iteration that neither failed nor passed leaves the loop ready for iteration `n + 1`. */
  lemma LoopContinues(w0: World, task: string, criteria: string, start: int, maxIter: int, feedback0: string,
                      stamp: int -> string, w: World, n: int, feedback: string, attempts: seq<Attempt>, w1: World, a: Attempt)
    requires Between(w0, task, criteria, start, maxIter, feedback0, stamp, w, n, feedback, attempts)
    requires n <= maxIter
    requires StepDone(w, w1, task, criteria, n, maxIter, feedback, stamp, a)
    requires !Passed(a)
    requires w1.state == Some(State(n, Running)) && Read(w1.files, FinalOutput) == Read(w.files, FinalOutput)
    ensures Between(w0, task, criteria, start, maxIter, feedback0, stamp,
                    w1, n + 1, feedback + Entry(a, stamp), attempts + [a])
  {
    var rs := Extend(w0, task, criteria, start, maxIter, feedback0, stamp, w, n, feedback, attempts, w1, a);
    NoPassExtend(attempts, a);
    OutputsFromNext(w0.files, w.files, w1.files, n);
  }

  /** What a completed iteration `n` is known to satisfy, as `IterationStepFacts` states it. */
  ghost predicate StepDone(w: World, w1: World, task: string, criteria: string, n: int, maxIter: int, feedback: string,
                           stamp: int -> string, a: Attempt) {
    && SameExcept(w.files, w1.files, StepFiles(n))
    && a.iteration == n && a.feedback == feedback
    && (a.reused <==> IterOutput(n) in w.files)
    && (a.reused ==> a.output == w.files[IterOutput(n)])
    && (a.verdict.None? <==> Contains(a.output, Blocked))
    && Read(w1.files, IterOutput(n)) == a.output
    && (a.verdict.Some? ==> Read(w1.files, IterVerdict(n)) == a.verdict.value)
    && w1.calls == w.calls + AttemptCalls(a, maxIter, task, criteria)
    && Read(w1.files, Feedback) == Read(w.files, Feedback) + Entry(a, stamp)
  }

  /** The attempt-wise guarantees extend to one more completed attempt. */
  lemma Extend(w0: World, task: string, criteria: string, start: int, maxIter: int, feedback0: string,
               stamp: int -> string, w: World, n: int, feedback: string, attempts: seq<Attempt>, w1: World, a: Attempt)
    returns (rs: seq<Attempt>)
    requires Between(w0, task, criteria, start, maxIter, feedback0, stamp, w, n, feedback, attempts)
    requires n <= maxIter
    requires StepDone(w, w1, task, criteria, n, maxIter, feedback, stamp, a)
    ensures rs == attempts + [a] && |rs| == n + 1 - start && n + 1 - start <= Max0(maxIter - start + 1)
    ensures Ascending(rs, start) && FedFrom(rs, feedback0, stamp) && ReusedIff(rs, w0.files)
    ensures JudgedUnlessBlocked(rs) && Recorded(rs, w1.files)
    ensures feedback + Entry(a, stamp) == feedback0 + Entries(rs, stamp)
    ensures Read(w1.files, Feedback) == Read(w0.files, Feedback) + Entries(rs, stamp)
    ensures w1.calls == w0.calls + LoopCalls(rs, maxIter, task, criteria)
  {
    rs := attempts + [a];
    AttemptsExtend(attempts, a, start, feedback0, stamp, w0.files, w.files, n, feedback);
    RecordedKept(attempts, start, w.files, w1.files, n);
    RecordedExtend(attempts, a, w1.files);
    EntriesExtend(attempts, a, stamp);
    LoopCallsExtend(attempts, a, maxIter, task, criteria);
    AppendAssoc(feedback0, Entries(attempts, stamp), Entry(a, stamp));
    AppendAssoc(Read(w0.files, Feedback), Entries(attempts, stamp), Entry(a, stamp));
    AppendAssoc(w0.calls, LoopCalls(attempts, maxIter, task, criteria), AttemptCalls(a, maxIter, task, criteria));
  }

  lemma AttemptsExtend(attempts: seq<Attempt>, a: Attempt, start: int, feedback0: string, stamp: int -> string,
                       files0: Files, files: Files, n: int, feedback: string)
    requires |attempts| == n - start && Ascending(attempts, start) && FedFrom(attempts, feedback0, stamp)
    requires ReusedIff(attempts, files0) && JudgedUnlessBlocked(attempts) && OutputsFrom(files0, files, n)
    requires feedback == feedback0 + Entries(attempts, stamp)
    requires a.iteration == n && a.feedback == feedback
    requires (a.reused <==> IterOutput(n) in files) && (a.reused ==> a.output == files[IterOutput(n)])
    requires a.verdict.None? <==> Contains(a.output, Blocked)
    ensures var rs := attempts + [a];
      Ascending(rs, start) && FedFrom(rs, feedback0, stamp) && ReusedIff(rs, files0) && JudgedUnlessBlocked(rs)
  {
    AscendingExtend(attempts, a, start);
    FedFromExtend(attempts, a, feedback0, stamp);
    ReusedExtend(attempts, a, files0, files, n);
    JudgedExtend(attempts, a);
  }

  lemma AscendingExtend(attempts: seq<Attempt>, a: Attempt, start: int)
    requires Ascending(attempts, start) && a.iteration == start + |attempts|
    ensures Ascending(attempts + [a], start)
  {
    var rs := attempts + [a];
    assert forall j :: 0 <= j < |attempts| ==> rs[j] == attempts[j];
  }

  lemma FedFromExtend(attempts: seq<Attempt>, a: Attempt, feedback0: string, stamp: int -> string)
    requires FedFrom(attempts, feedback0, stamp) && a.feedback == feedback0 + Entries(attempts, stamp)
    ensures FedFrom(attempts + [a], feedback0, stamp)
  {
    var rs := attempts + [a];
    forall j | 0 <= j < |rs| ensures rs[j].feedback == feedback0 + Entries(rs[..j], stamp) {
      if j < |attempts| {
        assert rs[j] == attempts[j] && rs[..j] == attempts[..j];
      } else {
        assert rs[j] == a && rs[..j] == attempts;
      }
    }
  }

  lemma ReusedExtend(attempts: seq<Attempt>, a: Attempt, files0: Files, files: Files, n: int)
    requires ReusedIff(attempts, files0) && OutputsFrom(files0, files, n) && a.iteration == n
    requires (a.reused <==> IterOutput(n) in files) && (a.reused ==> a.output == files[IterOutput(n)])
    ensures ReusedIff(attempts + [a], files0)
  {
    var rs := attempts + [a];
    assert forall j :: 0 <= j < |attempts| ==> rs[j] == attempts[j];
    assert IterOutput(n) in files0 <==> IterOutput(n) in files;
  }

  lemma JudgedExtend(attempts: seq<Attempt>, a: Attempt)
    requires JudgedUnlessBlocked(attempts) && (a.verdict.None? <==> Contains(a.output, Blocked))
    ensures JudgedUnlessBlocked(attempts + [a])
  {
    var rs := attempts + [a];
    assert forall j :: 0 <= j < |attempts| ==> rs[j] == attempts[j];
  }

  lemma RecordedKept(attempts: seq<Attempt>, start: int, files: Files, files1: Files, n: int)
    requires |attempts| == n - start && Ascending(attempts, start) && Recorded(attempts, files)
    requires SameExcept(files, files1, StepFiles(n))
    ensures Recorded(attempts, files1)
  {
    forall j | 0 <= j < |attempts|
      ensures Read(files1, IterOutput(attempts[j].iteration)) == attempts[j].output
      ensures attempts[j].verdict.Some? ==> Read(files1, IterVerdict(attempts[j].iteration)) == attempts[j].verdict.value
    {
      var m := attempts[j].iteration;
      assert IterOutput(m) !in {IterOutput(n), IterVerdict(n), Feedback, FinalOutput};
      assert IterVerdict(m) !in {IterOutput(n), IterVerdict(n), Feedback, FinalOutput};
    }
  }

  lemma RecordedExtend(attempts: seq<Attempt>, a: Attempt, files: Files)
    requires Recorded(attempts, files)
    requires Read(files, IterOutput(a.iteration)) == a.output
    requires a.verdict.Some? ==> Read(files, IterVerdict(a.iteration)) == a.verdict.value
    ensures Recorded(attempts + [a], files)
  {
    var rs := attempts + [a];
    assert forall j :: 0 <= j < |attempts| ==> rs[j] == attempts[j];
  }

  lemma NoPassExtend(attempts: seq<Attempt>, a: Attempt)
    requires NoPass(attempts) && !Passed(a)
    ensures NoPass(attempts + [a])
  {
    var rs := attempts + [a];
    assert forall j :: 0 <= j < |attempts| ==> rs[j] == attempts[j];
  }

  lemma OutputsFromNext(files0: Files, files: Files, files1: Files, n: int)
    requires OutputsFrom(files0, files, n)
    requires SameExcept(files, files1, StepFiles(n))
    ensures OutputsFrom(files0, files1, n + 1)
  {
    forall m | m >= n + 1
      ensures IterOutput(m) in files0 <==> IterOutput(m) in files1
      ensures IterOutput(m) in files0 ==> files0[IterOutput(m)] == files1[IterOutput(m)]
    {
      assert IterOutput(m) !in {IterOutput(n), IterVerdict(n), Feedback, FinalOutput};
    }
  }

  lemma EntriesExtend(attempts: seq<Attempt>, a: Attempt, stamp: int -> string)
    ensures Entries(attempts + [a], stamp) == Entries(attempts, stamp) + Entry(a, stamp)
  {
    var rs := attempts + [a];
    assert rs[..|rs| - 1] == attempts;
  }

  lemma LoopCallsExtend(attempts: seq<Attempt>, a: Attempt, maxIter: int, task: string, criteria: string)
    ensures LoopCalls(attempts + [a], maxIter, task, criteria)
         == LoopCalls(attempts, maxIter, task, criteria) + AttemptCalls(a, maxIter, task, criteria)
  {
    var rs := attempts + [a];
    assert rs[..|rs| - 1] == attempts;
  }

  // ---------------------------------------------------------------------------
  // The loop as `main` runs it

  /**
   * `main`'s loop from `start`, on a workspace whose feedback is `feedback.md`:
   * it visits `start`, `start + 1`, ... in order, each worker seeing the file's
   * feedback plus the entries so far; an existing output is reused without a
   * worker call; a blocked output is not judged; each iteration's output and
   * verdict stay in its directory; `feedback.md` only grows, by exactly the
   * entries of the iterations; and it ends after all iterations, at the first
   * pass (which writes the final output and a passing state), or at the
   * iteration whose agent call failed, with that iteration saved as running.
   */
  lemma IterationsProperties(w: World, task: string, criteria: string, start: int, maxIter: int,
                             stamp: int -> string)
    ensures LoopShape(w, task, criteria, start, maxIter, Read(w.files, Feedback), stamp,
                      IterLoop(w, task, criteria, start, maxIter, Read(w.files, Feedback), stamp, []))
  {
    IterLoopShape(w, task, criteria, start, maxIter, Read(w.files, Feedback), stamp,
                  w, start, Read(w.files, Feedback), []);
  }
}
