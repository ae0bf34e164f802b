/**
 * `request_clarification`: the run writes the questions to
 * `pending-clarification.md`, then checks for `clarification-response.md`
 * up to 60 times, sleeping 30 seconds after each miss. A response found is
 * stripped, appended to `task.md` and returned; a timeout returns "".
 */
module Clarification {
  import opened Wrappers
  import opened Text
  import opened Workspace
  import opened Environment

  const PollLimit := 60
  const ClarificationHeading := "\n\n## User Clarification\n\n"

  /** What a found answer adds to `task.md`. */
  function Appendix(answer: string): string {
    ClarificationHeading + answer + "\n"
  }

  /** One sleep: the user's next answer, if any, lands in `clarification-response.md`. */
  function Sleep(w: World): World {
    var (answer, rest) := NextReply(w.answers);
    w.(answers := rest, files := if answer.Some? then w.files[Response := answer.value] else w.files)
  }

  /** The files after an answer is taken: the questions removed, the answer appended to `task.md`. */
  function Answered(files: Files, answer: string): Files {
    (files - {Pending})[Task := Read(files, Task) + Appendix(answer)]
  }

  /** Checks `k` to 59: the world afterwards and the answer ("" on timeout). */
  function Poll(w: World, k: nat): (r: (World, string))
    decreases PollLimit - k
    ensures r.0.replies == w.replies && r.0.calls == w.calls && r.0.state == w.state
    ensures SameExcept(w.files, r.0.files, {Task, Pending, Response})
  {
    if k >= PollLimit then (w, "")
    else if Response in w.files then
      var answer := Strip(w.files[Response]);
      (w.(files := Answered(w.files, answer)), answer)
    else
      Poll(Sleep(w), k + 1)
  }

  /** The whole of `request_clarification` on a world. */
  function Clarify(w: World, questions: string): (World, string) {
    Poll(w.(files := w.files[Pending := questions]), 0)
  }

  /** `request_clarification`: post the questions, then poll for the response, sleeping after each miss. */
  method RequestClarification(ws: Store, agent: Agent, human: Human, questions: string) returns (answer: string)
    modifies ws, human
    ensures (Snap(ws, agent, human), answer) == Clarify(old(Snap(ws, agent, human)), questions)
  {
    ghost var goal := Clarify(Snap(ws, agent, human), questions);
    ws.Write(Pending, questions);
    var k := 0;
    while k < PollLimit
      invariant 0 <= k <= PollLimit
      invariant Poll(Snap(ws, agent, human), k) == goal
    {
      if Response in ws.files {
        ghost var w := Snap(ws, agent, human);
        answer := TakeAnswer(ws);
        assert Poll(w, k) == (w.(files := Answered(w.files, answer)), answer);
        return;
      }
      k := SleepOnce(ws, agent, human, k);
    }
    answer := "";
  }

  /** A check that finds `clarification-response.md`: the answer is taken and the round ends. */
  method TakeAnswer(ws: Store) returns (answer: string)
    requires Response in ws.files
    modifies ws
    ensures answer == Strip(old(ws.files)[Response])
    ensures ws.files == Answered(old(ws.files), answer) && ws.state == old(ws.state)
  {
    answer := Strip(ws.files[Response]);
    ws.Remove(Pending);
    ws.Append(Task, Appendix(answer));
  }

  /** A check that finds nothing: one 30-second sleep, during which the user may answer. */
  method SleepOnce(ws: Store, ghost agent: Agent, human: Human, k: nat) returns (next: nat)
    requires k < PollLimit && Response !in ws.files
    modifies ws, human
    ensures next == k + 1
    ensures Poll(Snap(ws, agent, human), next) == Poll(old(Snap(ws, agent, human)), k)
  {
    var reply := human.Wait();
    if reply.Some? {
      ws.Write(Response, reply.value);
    }
    next := k + 1;
  }

  // ---------------------------------------------------------------------------
  // What a clarification round amounts to

  /** The first of the first `limit` sleeps in which the user answered. */
  function FirstAnswer(answers: seq<Option<string>>, limit: nat): (r: Option<nat>)
    ensures r.Some? ==> r.value < limit && r.value < |answers| && answers[r.value].Some?
    ensures r.Some? ==> forall j :: 0 <= j < r.value ==> answers[j].None?
    ensures r.None? ==> forall j :: 0 <= j < limit && j < |answers| ==> answers[j].None?
  {
    if limit == 0 || answers == [] then None
    else if answers[0].Some? then Some(0)
    else match FirstAnswer(answers[1..], limit - 1)
      case None => None
      case Some(j) => Some(j + 1)
  }

  /** The answers left after `n` sleeps. */
  function Drop(answers: seq<Option<string>>, n: nat): seq<Option<string>> {
    if n <= |answers| then answers[n..] else []
  }

  /** An answer written during the last sleep is left in the workspace unread. */
  function Late(files: Files, answers: seq<Option<string>>, n: nat): Files
    requires n > 0
  {
    if n <= |answers| && answers[n - 1].Some? then files[Response := answers[n - 1].value] else files
  }

  /**
   * Polling with `left` checks to go and no response yet, in closed form: the
   * first answer the user gives within the next `left - 1` sleeps is taken at
   * the check after it; without one, the checks run out after `left` sleeps,
   * and an answer given during the last sleep stays in the workspace unread.
   */
  function Polled(w: World, left: nat): (World, string)
    requires left > 0
  {
    match FirstAnswer(w.answers, left - 1)
    case Some(j) =>
      var answer := Strip(w.answers[j].value);
      (w.(answers := w.answers[j + 1..], files := Answered(w.files[Response := w.answers[j].value], answer)), answer)
    case None =>
      (w.(answers := Drop(w.answers, left), files := Late(w.files, w.answers, left)), "")
  }

  /** From check `k` on, with no response yet, polling is `Polled` with the remaining checks. */
  lemma {:induction false} PollWithoutResponse(w: World, k: nat)
    requires k < PollLimit && Response !in w.files
    ensures Poll(w, k) == Polled(w, PollLimit - k)
    decreases PollLimit - k
  {
    var a := w.answers;
    if a != [] && a[0].Some? && k + 1 < PollLimit {
      assert FirstAnswer(a, PollLimit - 1 - k) == Some(0);
    } else if a != [] && a[0].Some? {
      assert FirstAnswer(a, 0) == None;
    } else if k + 1 < PollLimit {
      PollWithoutResponse(Sleep(w), k + 1);
      QuietSleep(w, PollLimit - k);
    }
  }

  /** A sleep in which the user does not answer uses up one check and nothing else. */
  lemma QuietSleep(w: World, left: nat)
    requires left > 1 && Response !in w.files && (w.answers == [] || w.answers[0].None?)
    ensures Polled(Sleep(w), left - 1) == Polled(w, left)
  {
    var a := w.answers;
    if a != [] {
      var s := Sleep(w);
      assert s.answers == a[1..] && s.files == w.files;
      match FirstAnswer(a[1..], left - 2)
      case Some(j) =>
        assert FirstAnswer(a, left - 1) == Some(j + 1);
        assert a[1..][j + 1..] == a[j + 2..];
      case None =>
        assert FirstAnswer(a, left - 1) == None;
    }
  }

  /**
   * A clarification round: the questions are posted; a response already there
   * is taken at once; otherwise polling runs its 60 checks as `Polled` says.
   * A taken answer is stripped, appended to `task.md` under
   * `## User Clarification` and removes the posted questions;
   * `clarification-response.md` stays.
   */
  lemma ClarifyOutcome(w: World, questions: string)
    ensures var posted := w.(files := w.files[Pending := questions]);
      Clarify(w, questions) ==
        if Response in w.files then
          var answer := Strip(w.files[Response]);
          (posted.(files := Answered(posted.files, answer)), answer)
        else Polled(posted, PollLimit)
  {
    if Response !in w.files {
      PollWithoutResponse(w.(files := w.files[Pending := questions]), 0);
    }
  }

  /** A taken answer grows `task.md` by exactly its appendix and removes the posted questions. */
  lemma ClarifyAnsweredTask(w: World, questions: string)
    requires Response in w.files || FirstAnswer(w.answers, PollLimit - 1).Some?
    ensures var (w', answer) := Clarify(w, questions);
      Read(w'.files, Task) == Read(w.files, Task) + Appendix(answer) && Pending !in w'.files
  {
    ClarifyOutcome(w, questions);
    var posted := w.files[Pending := questions];
    assert Read(posted, Task) == Read(w.files, Task);
    if Response !in w.files {
      var j := FirstAnswer(w.answers, PollLimit - 1).value;
      assert Read(posted[Response := w.answers[j].value], Task) == Read(w.files, Task);
    }
  }

  /** Without an answer, `task.md` is unchanged, the questions stay posted and the result is "". */
  lemma ClarifyTimeoutTask(w: World, questions: string)
    requires Response !in w.files && FirstAnswer(w.answers, PollLimit - 1).None?
    ensures var (w', answer) := Clarify(w, questions);
      Read(w'.files, Task) == Read(w.files, Task) && Read(w'.files, Pending) == questions && answer == ""
  {
    ClarifyOutcome(w, questions);
  }

  /** The round sleeps at most 60 times. */
  lemma ClarifyBounded(w: World, questions: string)
    ensures var (w', _) := Clarify(w, questions);
      |w'.answers| <= |w.answers| && |w.answers| - |w'.answers| <= PollLimit
  {
    ClarifyOutcome(w, questions);
  }
}
