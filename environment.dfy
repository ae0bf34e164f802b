/**
 * What the orchestrator talks to besides its workspace: the agent gateway,
 * which answers each prompt with a reply or fails, and the user, who may drop
 * a `clarification-response.md` into the workspace while the run sleeps.
 * `World` is a snapshot of everything the run can observe or change.
 */
module Environment {
  import opened Wrappers
  import opened Workspace

  /**
   * One agent session, with what its prompt is built from. A draft prompt
   * carries the refinement feedback only when it is not blank; a worker
   * prompt carries the feedback as `{{FEEDBACK}}` is filled in.
   */
  datatype Call =
    | Draft(round: int, task: string, refinement: Option<string>)
    | CriteriaJudge(round: int, task: string, criteria: string)
    | Worker(iteration: int, maxIter: int, task: string, criteria: string, feedback: string)
    | Judge(iteration: int, maxIter: int, criteria: string, output: string)

  /** The agent gateway: the replies it will give, in order, and the calls made so far. */
  class Agent {
    /** `None` is a failed call (`call_agent` raises); no reply left is a failure too. */
    var replies: seq<Option<string>>
    var calls: seq<Call>

    constructor (replies: seq<Option<string>>)
      ensures this.replies == replies && calls == []
    {
      this.replies := replies;
      calls := [];
    }

    /** `call_agent`: one session, answered by the next reply. */
    method Invoke(c: Call) returns (reply: Option<string>)
      modifies this
      ensures calls == old(calls) + [c]
      ensures (reply, replies) == NextReply(old(replies))
    {
      calls := calls + [c];
      reply, replies := NextReply(replies).0, NextReply(replies).1;
    }
  }

  function NextReply(replies: seq<Option<string>>): (Option<string>, seq<Option<string>>) {
    if replies == [] then (None, []) else (replies[0], replies[1..])
  }

  /** The user: for each 30-second sleep, the answer written to the workspace during it, if any. */
  class Human {
    var answers: seq<Option<string>>

    constructor (answers: seq<Option<string>>)
      ensures this.answers == answers
    {
      this.answers := answers;
    }

    /** One `time.sleep(30)`, and what the user wrote meanwhile. */
    method Wait() returns (answer: Option<string>)
      modifies this
      ensures (answer, answers) == NextReply(old(answers))
    {
      answer, answers := NextReply(answers).0, NextReply(answers).1;
    }
  }

  /** Everything the run observes or changes. */
  datatype World = World(
    files: Files,
    state: Option<State>,
    replies: seq<Option<string>>,
    calls: seq<Call>,
    answers: seq<Option<string>>)

  function Snap(ws: Store, agent: Agent, human: Human): World
    reads ws, agent, human
  {
    World(ws.files, ws.state, agent.replies, agent.calls, human.answers)
  }

  /** Writing one file. */
  function Put(w: World, p: Path, content: string): World {
    w.(files := w.files[p := content])
  }

  /** One agent call: the world afterwards and the reply. */
  function Ask(w: World, c: Call): (World, Option<string>) {
    var (reply, rest) := NextReply(w.replies);
    (w.(replies := rest, calls := w.calls + [c]), reply)
  }

  /** Files other than `keep` are the same in both maps. */
  ghost predicate SameExcept(before: Files, after: Files, keep: set<Path>) {
    forall p :: p !in keep ==> (p in before <==> p in after) && (p in before ==> before[p] == after[p])
  }
}
