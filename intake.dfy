/**
 * `run_intake`: the bounded loop that drafts acceptance criteria, asks the
 * user when a draft says it needs clarification, has the criteria judged
 * otherwise, and finally locks the last draft into `criteria.md`.
 */
module Intake {
  import opened Wrappers
  import opened Text
  import opened Verdict
  import opened Workspace
  import opened Environment
  import opened Clarification
  import opened Util

  const NeedsClarification := "[NEEDS_CLARIFICATION]"
  const ClarificationPrefix := "User clarification provided:\n"

  /** How a round ended: with the judge's verdict, or with the user's answer ("" on timeout). */
  datatype Outcome = Judged(verdict: string) | Clarified(answer: string)

  /** One intake round: its number, task description and feedback it drafted from, its draft, and how it ended. */
  datatype Round = Round(index: int, task: string, feedback: string, draft: string, outcome: Outcome)

  /** The questions a draft asks: the text after the first marker, stripped. */
  function Questions(draft: string): (q: string)
    requires Contains(draft, NeedsClarification)
    ensures q == Strip(q)
    ensures Contains(AfterFirst(draft, NeedsClarification), q)
  {
    var after := AfterFirst(draft, NeedsClarification);
    StripIdempotent(after);
    StripOccurs(after);
    Strip(after)
  }

  /** The refinement section of the draft prompt, present only when the feedback is not blank. */
  function Refinement(feedback: string): (r: Option<string>)
    ensures r.None? <==> AllSpace(feedback)
    ensures r.Some? ==> r.value == feedback
  {
    StripEmptyIff(feedback);
    if Strip(feedback) == "" then None else Some(feedback)
  }

  predicate Approved(r: Round) {
    r.outcome.Judged? && IsApproved(r.outcome.verdict)
  }

  /** The feedback the next round drafts from: a verdict's suggested fixes replace it, an answer replaces it, a timeout keeps it. */
  function NextFeedback(r: Round): string {
    match r.outcome
    case Judged(verdict) => ExtractCriteriaFeedback(verdict)
    case Clarified(answer) => if answer != "" then ClarificationPrefix + answer else r.feedback
  }

  /** The agent calls a round makes: a draft, then a criteria judgement unless the draft asked for clarification. */
  function RoundCalls(r: Round): seq<Call> {
    [Draft(r.index, r.task, Refinement(r.feedback))]
      + (if r.outcome.Judged? then [CriteriaJudge(r.index, r.task, r.draft)] else [])
  }

  function Calls(rounds: seq<Round>): seq<Call> {
    if rounds == [] then [] else Calls(rounds[..|rounds| - 1]) + RoundCalls(rounds[|rounds| - 1])
  }

  /** Round `i` of the loop body; `None` when an agent call fails (the exception ends the run). */
  function IntakeRound(w: World, task: string, i: int, feedback: string): (World, Option<Round>) {
    var task := if Read(w.files, Task) != "" then Read(w.files, Task) else task;
    var (w1, reply) := Ask(w, Draft(i, task, Refinement(feedback)));
    if reply.None? then (w1, None)
    else SettleDraft(Put(w1, IntakeDraft(i), reply.value), task, i, feedback, reply.value)
  }

  /** The rest of round `i` once its draft is saved: ask the user, or have the draft judged. */
  function SettleDraft(w: World, task: string, i: int, feedback: string, draft: string): (World, Option<Round>) {
    if Contains(draft, NeedsClarification) then
      var (w1, answer) := Clarify(w, Questions(draft));
      (w1, Some(Round(i, task, feedback, draft, Clarified(answer))))
    else
      var (w1, verdict) := Ask(w, CriteriaJudge(i, task, draft));
      if verdict.None? then (w1, None)
      else (Put(w1, IntakeVerdict(i), verdict.value), Some(Round(i, task, feedback, draft, Judged(verdict.value))))
  }

  /** What intake leaves behind: the world, the criteria returned, the rounds run, and whether no call failed. */
  datatype IntakeResult = IntakeResult(world: World, criteria: string, rounds: seq<Round>, ok: bool)

  /** Rounds `i` to `maxIntake`, after `rounds` have run with the given feedback and last draft. */
  function IntakeLoop(w: World, task: string, i: int, maxIntake: int, feedback: string, criteria: string, rounds: seq<Round>): IntakeResult
    decreases if i <= maxIntake then maxIntake - i + 1 else 0
  {
    if i > maxIntake then IntakeResult(Put(w, Criteria, criteria), criteria, rounds, true)
    else
      var (w1, r) := IntakeRound(w, task, i, feedback);
      if r.None? then IntakeResult(w1, criteria, rounds, false)
      else if Approved(r.value) then IntakeResult(Put(w1, Criteria, r.value.draft), r.value.draft, rounds + [r.value], true)
      else IntakeLoop(w1, r.value.task, i + 1, maxIntake, NextFeedback(r.value), r.value.draft, rounds + [r.value])
  }

  /** One step of the loop, with the round's world and result named. */
  lemma IntakeLoopUnfold(w: World, task: string, i: int, maxIntake: int, feedback: string, criteria: string, rounds: seq<Round>)
    returns (w1: World, r: Option<Round>)
    requires i <= maxIntake
    ensures (w1, r) == IntakeRound(w, task, i, feedback)
    ensures IntakeLoop(w, task, i, maxIntake, feedback, criteria, rounds)
        == if r.None? then IntakeResult(w1, criteria, rounds, false)
           else if Approved(r.value) then IntakeResult(Put(w1, Criteria, r.value.draft), r.value.draft, rounds + [r.value], true)
           else IntakeLoop(w1, r.value.task, i + 1, maxIntake, NextFeedback(r.value), r.value.draft, rounds + [r.value])
  {
    w1, r := IntakeRound(w, task, i, feedback).0, IntakeRound(w, task, i, feedback).1;
  }

  /** The whole of `run_intake` on a world. */
  function RunIntakeSpec(w: World, task: string, maxIntake: int): IntakeResult {
    if Criteria in w.files then IntakeResult(w, w.files[Criteria], [], true)
    else IntakeLoop(w, task, 1, maxIntake, "", "", [])
  }

  /** `run_intake_draft`. */
  method RunIntakeDraft(agent: Agent, task: string, feedback: string, round: int) returns (reply: Option<string>)
    modifies agent
    ensures agent.calls == old(agent.calls) + [Draft(round, task, Refinement(feedback))]
    ensures (reply, agent.replies) == NextReply(old(agent.replies))
  {
    reply := agent.Invoke(Draft(round, task, Refinement(feedback)));
  }

  /** `run_criteria_judge`: the reply, and whether it approves the criteria. */
  method RunCriteriaJudge(agent: Agent, task: string, criteria: string, round: int) returns (reply: Option<string>, approved: bool)
    modifies agent
    ensures agent.calls == old(agent.calls) + [CriteriaJudge(round, task, criteria)]
    ensures (reply, agent.replies) == NextReply(old(agent.replies))
    ensures approved <==> reply.Some? && IsApproved(reply.value)
  {
    reply := agent.Invoke(CriteriaJudge(round, task, criteria));
    approved := reply.Some? && IsApproved(reply.value);
  }

  /** The body of `run_intake`'s loop for round `i`; `None` when an agent call failed. */
  method IntakeStep(ws: Store, agent: Agent, human: Human, task: string, i: int, feedback: string) returns (round: Option<Round>)
    modifies ws, agent, human
    ensures (Snap(ws, agent, human), round) == IntakeRound(old(Snap(ws, agent, human)), task, i, feedback)
  {
    var task := if Read(ws.files, Task) != "" then Read(ws.files, Task) else task;
    var reply := RunIntakeDraft(agent, task, feedback, i);
    if reply.None? {
      return None;
    }
    ws.Write(IntakeDraft(i), reply.value);
    round := SettleStep(ws, agent, human, task, i, feedback, reply.value);
  }

  /** The loop body after the draft is saved: ask the user when the draft says so, else have it judged. */
  method SettleStep(ws: Store, agent: Agent, human: Human, task: string, i: int, feedback: string, criteria: string)
    returns (round: Option<Round>)
    modifies ws, agent, human
    ensures (Snap(ws, agent, human), round) == SettleDraft(old(Snap(ws, agent, human)), task, i, feedback, criteria)
  {
    if Contains(criteria, NeedsClarification) {
      var questions := Strip(AfterFirst(criteria, NeedsClarification));
      var clarification := RequestClarification(ws, agent, human, questions);
      return Some(Round(i, task, feedback, criteria, Clarified(clarification)));
    }
    var verdict, approved := RunCriteriaJudge(agent, task, criteria, i);
    if verdict.None? {
      return None;
    }
    ws.Write(IntakeVerdict(i), verdict.value);
    return Some(Round(i, task, feedback, criteria, Judged(verdict.value)));
  }

  /** `run_intake`; `ok` is false when an agent call failed, which ends the whole run. */
  method RunIntake(ws: Store, agent: Agent, human: Human, task: string, maxIntake: int) returns (ok: bool, criteria: string)
    modifies ws, agent, human
    ensures var r := RunIntakeSpec(old(Snap(ws, agent, human)), task, maxIntake);
      Snap(ws, agent, human) == r.world && ok == r.ok && criteria == r.criteria
  {
    ghost var goal := RunIntakeSpec(Snap(ws, agent, human), task, maxIntake);
    if Criteria in ws.files {
      return true, ws.files[Criteria];
    }
    var feedback := "";
    criteria := "";
    var task := task;
    ghost var rounds: seq<Round> := [];
    var i := 1;
    while i <= maxIntake
      invariant IntakeLoop(Snap(ws, agent, human), task, i, maxIntake, feedback, criteria, rounds) == goal
      decreases maxIntake - i
    {
      var stop, next;
      stop, ok, task, criteria, feedback, rounds, next := IntakeIteration(ws, agent, human, task, i, maxIntake, feedback, criteria, rounds);
      if stop {
        if ok {
          ws.Write(Criteria, criteria);
        }
        return;
      }
      i := next;
    }
    ws.Write(Criteria, criteria);
    ok := true;
  }

  /**
   * One pass of `run_intake`'s loop. It `stop`s on a failed call (`ok` false)
   * or on approval (`ok` true, the approved draft still to be locked);
   * otherwise the loop goes on from round `next` with the new task, criteria
   * and feedback.
   */
  method IntakeIteration(ws: Store, agent: Agent, human: Human, task: string, i: int, maxIntake: int,
                         feedback: string, criteria: string, ghost rounds: seq<Round>)
    returns (stop: bool, ok: bool, task1: string, criteria1: string, feedback1: string, ghost rounds1: seq<Round>, next: int)
    requires i <= maxIntake
    modifies ws, agent, human
    ensures next == i + 1
    ensures IntakeLoop(old(Snap(ws, agent, human)), task, i, maxIntake, feedback, criteria, rounds)
        == if !stop then IntakeLoop(Snap(ws, agent, human), task1, next, maxIntake, feedback1, criteria1, rounds1)
           else if ok then IntakeResult(Put(Snap(ws, agent, human), Criteria, criteria1), criteria1, rounds1, true)
           else IntakeResult(Snap(ws, agent, human), criteria1, rounds1, false)
  {
    ghost var w := Snap(ws, agent, human);
    next := i + 1;
    var round := IntakeStep(ws, agent, human, task, i, feedback);
    ghost var _, _ := IntakeLoopUnfold(w, task, i, maxIntake, feedback, criteria, rounds);
    if round.None? {
      return true, false, task, criteria, feedback, rounds, next;
    }
    var r := round.value;
    stop := r.outcome.Judged? && IsApproved(r.outcome.verdict);
    ok := stop;
    task1, criteria1, feedback1, rounds1 := r.task, r.draft, NextFeedback(r), rounds + [r];
  }

  // ---------------------------------------------------------------------------
  // What intake guarantees

  function LastDraft(rounds: seq<Round>): string {
    if rounds == [] then "" else rounds[|rounds| - 1].draft
  }

  /** The last round ran was approved. */
  predicate EndsApproved(rounds: seq<Round>) {
    rounds != [] && Approved(rounds[|rounds| - 1])
  }

  /**
   * The rounds are numbered 1, 2, ...; a round judges its draft exactly when
   * the draft does not ask for clarification; the first drafts without
   * feedback and each later one from the feedback its predecessor left; only
   * the last can be approved.
   */
  ghost predicate Chained(rounds: seq<Round>) {
    Numbered(rounds) && JudgedUnlessAsked(rounds) && FeedbackChained(rounds) && ApprovalEnds(rounds)
  }

  ghost predicate Numbered(rounds: seq<Round>) {
    forall j :: 0 <= j < |rounds| ==> rounds[j].index == j + 1
  }

  ghost predicate JudgedUnlessAsked(rounds: seq<Round>) {
    forall j :: 0 <= j < |rounds| ==> (rounds[j].outcome.Judged? <==> !Contains(rounds[j].draft, NeedsClarification))
  }

  ghost predicate FeedbackChained(rounds: seq<Round>) {
    forall j :: 0 <= j < |rounds| ==> rounds[j].feedback == FeedbackAfter(rounds[..j])
  }

  ghost predicate ApprovalEnds(rounds: seq<Round>) {
    forall j :: 0 <= j < |rounds| - 1 ==> !Approved(rounds[j])
  }

  /** The feedback left by the rounds run so far. */
  function FeedbackAfter(rounds: seq<Round>): string {
    if rounds == [] then "" else NextFeedback(rounds[|rounds| - 1])
  }

  /** Settling a draft touches only the round's verdict and the clarification files. */
  lemma SettleDraftFiles(w: World, task: string, i: int, feedback: string, draft: string)
    ensures SameExcept(w.files, SettleDraft(w, task, i, feedback, draft).0.files, {IntakeVerdict(i), Task, Pending, Response})
  {
    if Contains(draft, NeedsClarification) {
      var (w1, answer) := Clarify(w, Questions(draft));
      assert SameExcept(w.files, w1.files, {Task, Pending, Response});
    }
  }

  /** One round never touches `criteria.md` or files of other rounds. */
  lemma IntakeRoundFiles(w: World, task: string, i: int, feedback: string)
    ensures var (w1, r) := IntakeRound(w, task, i, feedback);
      SameExcept(w.files, w1.files, {IntakeDraft(i), IntakeVerdict(i), Task, Pending, Response})
  {
    var t := if Read(w.files, Task) != "" then Read(w.files, Task) else task;
    var (w1, reply) := Ask(w, Draft(i, t, Refinement(feedback)));
    if reply.Some? {
      SettleDraftFiles(Put(w1, IntakeDraft(i), reply.value), t, i, feedback, reply.value);
    }
  }

  /** In particular a round never creates `criteria.md`. */
  lemma IntakeRoundKeepsCriteria(w: World, task: string, i: int, feedback: string)
    ensures Criteria !in w.files ==> Criteria !in IntakeRound(w, task, i, feedback).0.files
  {
    var w1 := IntakeRound(w, task, i, feedback).0;
    IntakeRoundFiles(w, task, i, feedback);
    KeptOutside(w.files, w1.files, {IntakeDraft(i), IntakeVerdict(i), Task, Pending, Response}, Criteria);
  }

  lemma KeptOutside(before: Files, after: Files, keep: set<Path>, p: Path)
    requires SameExcept(before, after, keep) && p !in keep
    ensures p in before <==> p in after
  {
  }

  /** A settled draft: the round's number and feedback, whether it was judged, and the judge call. */
  lemma SettleDraftFacts(w: World, task: string, i: int, feedback: string, draft: string)
    ensures var (w1, r) := SettleDraft(w, task, i, feedback, draft);
      r.Some? ==>
        && r.value.index == i && r.value.feedback == feedback && r.value.task == task && r.value.draft == draft
        && (r.value.outcome.Judged? <==> !Contains(draft, NeedsClarification))
        && w1.calls == w.calls + (if r.value.outcome.Judged? then [CriteriaJudge(i, task, draft)] else [])
  {
    if Contains(draft, NeedsClarification) {
      var (w1, answer) := Clarify(w, Questions(draft));
      assert w1.calls == w.calls;
    }
  }

  /** One round that completes: its number and feedback, whether it judged, and its calls. */
  lemma IntakeRoundFacts(w: World, task: string, i: int, feedback: string)
    ensures var (w1, r) := IntakeRound(w, task, i, feedback);
      r.Some? ==>
        && r.value.index == i && r.value.feedback == feedback
        && (r.value.outcome.Judged? <==> !Contains(r.value.draft, NeedsClarification))
        && w1.calls == w.calls + RoundCalls(r.value)
  {
    var t := if Read(w.files, Task) != "" then Read(w.files, Task) else task;
    var d := Draft(i, t, Refinement(feedback));
    var (w1, reply) := Ask(w, d);
    if reply.Some? {
      var w2 := Put(w1, IntakeDraft(i), reply.value);
      SettleDraftFacts(w2, t, i, feedback, reply.value);
      var (w3, r) := SettleDraft(w2, t, i, feedback, reply.value);
      if r.Some? {
        assert RoundCalls(r.value) == [d] + (if r.value.outcome.Judged? then [CriteriaJudge(i, t, reply.value)] else []);
        AppendAssoc(w.calls, [d], if r.value.outcome.Judged? then [CriteriaJudge(i, t, reply.value)] else []);
      }
    }
  }

  /** What intake guarantees about its result, for a run that started from `w0` without `criteria.md`. */
  ghost predicate IntakeShape(w0: World, maxIntake: int, r: IntakeResult) {
    && Chained(r.rounds) && |r.rounds| <= Max0(maxIntake)
    && (r.ok ==>
          && r.criteria == LastDraft(r.rounds)
          && Criteria in r.world.files && r.world.files[Criteria] == r.criteria
          && r.world.calls == w0.calls + Calls(r.rounds)
          && (|r.rounds| < Max0(maxIntake) ==> EndsApproved(r.rounds)))
    && (!r.ok ==> Criteria !in r.world.files)
  }

  /** Rounds `i` onwards, continuing a chain of `i - 1` rounds, keep the guarantees of `IntakeShape`. */
  lemma {:induction false} IntakeLoopShape(w0: World, w: World, task: string, i: int, maxIntake: int,
                                           feedback: string, criteria: string, rounds: seq<Round>)
    requires |rounds| == i - 1 && |rounds| <= Max0(maxIntake) && Chained(rounds)
    requires criteria == LastDraft(rounds)
    requires feedback == FeedbackAfter(rounds)
    requires rounds != [] ==> !Approved(rounds[|rounds| - 1])
    requires Criteria !in w.files && w.calls == w0.calls + Calls(rounds)
    decreases if i <= maxIntake then maxIntake - i + 1 else 0
    ensures IntakeShape(w0, maxIntake, IntakeLoop(w, task, i, maxIntake, feedback, criteria, rounds))
    ensures rounds <= IntakeLoop(w, task, i, maxIntake, feedback, criteria, rounds).rounds
  {
    if i <= maxIntake {
      var w1, r := LoopStep(w, task, i, maxIntake, feedback, criteria, rounds);
      if r.None? {
        StepFailed(w0, maxIntake, w1, criteria, rounds);
      } else {
        var rs := rounds + [r.value];
        RoundExtends(w0, w1, rounds, r.value);
        if Approved(r.value) {
          StepApproved(w0, maxIntake, w1, rounds, r.value);
        } else {
          IntakeLoopShape(w0, w1, r.value.task, i + 1, maxIntake, NextFeedback(r.value), r.value.draft, rs);
          PrefixTrans(rounds, rs, IntakeLoop(w1, r.value.task, i + 1, maxIntake, NextFeedback(r.value), r.value.draft, rs).rounds);
        }
      }
    }
  }

  /** One step of the loop with only what the shape proof needs about the round. */
  lemma LoopStep(w: World, task: string, i: int, maxIntake: int, feedback: string, criteria: string, rounds: seq<Round>)
    returns (w1: World, r: Option<Round>)
    requires i <= maxIntake
    ensures IntakeLoop(w, task, i, maxIntake, feedback, criteria, rounds)
        == if r.None? then IntakeResult(w1, criteria, rounds, false)
           else if Approved(r.value) then IntakeResult(Put(w1, Criteria, r.value.draft), r.value.draft, rounds + [r.value], true)
           else IntakeLoop(w1, r.value.task, i + 1, maxIntake, NextFeedback(r.value), r.value.draft, rounds + [r.value])
    ensures Criteria !in w.files ==> Criteria !in w1.files
    ensures r.Some? ==>
        && r.value.index == i && r.value.feedback == feedback
        && (r.value.outcome.Judged? <==> !Contains(r.value.draft, NeedsClarification))
        && w1.calls == w.calls + RoundCalls(r.value)
  {
    w1, r := IntakeLoopUnfold(w, task, i, maxIntake, feedback, criteria, rounds);
    IntakeRoundFacts(w, task, i, feedback);
    IntakeRoundKeepsCriteria(w, task, i, feedback);
  }

  /** A completed round after an unapproved one leaves a chain the next round can continue. */
  lemma RoundExtends(w0: World, w1: World, rounds: seq<Round>, r: Round)
    requires Chained(rounds) && r.index == |rounds| + 1 && r.feedback == FeedbackAfter(rounds)
    requires r.outcome.Judged? <==> !Contains(r.draft, NeedsClarification)
    requires rounds != [] ==> !Approved(rounds[|rounds| - 1])
    requires w1.calls == w0.calls + Calls(rounds) + RoundCalls(r)
    ensures var rs := rounds + [r];
      && Chained(rs) && r.draft == LastDraft(rs) && NextFeedback(r) == FeedbackAfter(rs)
      && w1.calls == w0.calls + Calls(rs)
  {
    var rs := rounds + [r];
    ChainExtend(rounds, r);
    assert rs[|rs| - 1] == r;
    CallsExtend(rounds, r);
    calc {
      w0.calls + Calls(rs);
      w0.calls + (Calls(rounds) + RoundCalls(r));
      { AppendAssoc(w0.calls, Calls(rounds), RoundCalls(r)); }
      w1.calls;
    }
  }

  lemma CallsExtend(rounds: seq<Round>, r: Round)
    ensures Calls(rounds + [r]) == Calls(rounds) + RoundCalls(r)
  {
    var rs := rounds + [r];
    assert rs[..|rs| - 1] == rounds;
  }

  /** A failed call ends intake without `criteria.md`. */
  lemma StepFailed(w0: World, maxIntake: int, w1: World, criteria: string, rounds: seq<Round>)
    requires |rounds| <= Max0(maxIntake) && Chained(rounds) && Criteria !in w1.files
    ensures IntakeShape(w0, maxIntake, IntakeResult(w1, criteria, rounds, false))
  {
  }

  /** An approval ends intake early with the approved draft as the criteria. */
  lemma StepApproved(w0: World, maxIntake: int, w1: World, rounds: seq<Round>, r: Round)
    requires |rounds| < Max0(maxIntake) && Chained(rounds + [r]) && Approved(r)
    requires w1.calls == w0.calls + Calls(rounds + [r])
    ensures IntakeShape(w0, maxIntake, IntakeResult(Put(w1, Criteria, r.draft), r.draft, rounds + [r], true))
  {
    assert EndsApproved(rounds + [r]);
  }

  /** A round that follows the chain extends it. */
  lemma ChainExtend(rounds: seq<Round>, r: Round)
    requires Chained(rounds) && r.index == |rounds| + 1
    requires r.outcome.Judged? <==> !Contains(r.draft, NeedsClarification)
    requires r.feedback == FeedbackAfter(rounds)
    requires rounds != [] ==> !Approved(rounds[|rounds| - 1])
    ensures Chained(rounds + [r])
  {
    NumberedExtend(rounds, r);
    JudgedExtend(rounds, r);
    FeedbackExtend(rounds, r);
    ApprovalExtend(rounds, r);
  }

  lemma NumberedExtend(rounds: seq<Round>, r: Round)
    requires Numbered(rounds) && r.index == |rounds| + 1
    ensures Numbered(rounds + [r])
  {
    var rs := rounds + [r];
    assert forall j :: 0 <= j < |rounds| ==> rs[j] == rounds[j];
  }

  lemma JudgedExtend(rounds: seq<Round>, r: Round)
    requires JudgedUnlessAsked(rounds)
    requires r.outcome.Judged? <==> !Contains(r.draft, NeedsClarification)
    ensures JudgedUnlessAsked(rounds + [r])
  {
    var rs := rounds + [r];
    assert forall j :: 0 <= j < |rounds| ==> rs[j] == rounds[j];
  }

  lemma FeedbackExtend(rounds: seq<Round>, r: Round)
    requires FeedbackChained(rounds) && r.feedback == FeedbackAfter(rounds)
    ensures FeedbackChained(rounds + [r])
  {
    var rs := rounds + [r];
    forall j | 0 <= j < |rs| ensures rs[j].feedback == FeedbackAfter(rs[..j]) {
      assert rs[..j] == rounds[..j];
    }
  }

  lemma ApprovalExtend(rounds: seq<Round>, r: Round)
    requires ApprovalEnds(rounds)
    requires rounds != [] ==> !Approved(rounds[|rounds| - 1])
    ensures ApprovalEnds(rounds + [r])
  {
    var rs := rounds + [r];
    assert forall j :: 0 <= j < |rounds| ==> rs[j] == rounds[j];
  }

  /**
   * `run_intake`: with `criteria.md` present it returns that text and changes
   * nothing, calling no agent. Otherwise it runs at most `max_intake_iter`
   * chained rounds, stops at the first approval and otherwise runs them all,
   * makes exactly the calls of its rounds (so a clarification round never
   * calls the judge), and writes `criteria.md` with the last draft ("" when no
   * round ran). When an agent call fails, `criteria.md` is not written.
   */
  lemma IntakeProperties(w: World, task: string, maxIntake: int)
    ensures var r := RunIntakeSpec(w, task, maxIntake);
      && (Criteria in w.files ==> r.world == w && r.criteria == w.files[Criteria] && r.ok && r.rounds == [])
      && (Criteria !in w.files ==>
            && Chained(r.rounds) && |r.rounds| <= Max0(maxIntake)
            && (r.ok ==>
                  && r.criteria == LastDraft(r.rounds)
                  && Criteria in r.world.files && r.world.files[Criteria] == r.criteria
                  && r.world.calls == w.calls + Calls(r.rounds)
                  && (|r.rounds| < Max0(maxIntake) ==> EndsApproved(r.rounds)))
            && (!r.ok ==> Criteria !in r.world.files))
  {
    if Criteria !in w.files {
      IntakeLoopShape(w, w, task, 1, maxIntake, "", "", []);
      assert IntakeShape(w, maxIntake, RunIntakeSpec(w, task, maxIntake));
    }
  }
}
