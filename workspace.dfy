/**
 * The run's workspace directory: the text files the orchestrator reads and
 * writes, keyed by their role, and the state record kept in `state.json`.
 */
module Workspace {
  import opened Wrappers
  import opened Text

  /**
   * The files of a workspace. `IterOutput(n)` is `iter-NN/output.md`,
   * `IterVerdict(n)` is `iter-NN/verdict.md`, `IntakeDraft(i)` and
   * `IntakeVerdict(i)` are `intake-NN/criteria-draft.md` and
   * `intake-NN/criteria-verdict.md`, `Pending` is `pending-clarification.md`
   * and `Response` is `clarification-response.md`.
   */
  datatype Path =
    | Task | Criteria | Feedback | FinalOutput | Pending | Response
    | IterOutput(iteration: int) | IterVerdict(iteration: int)
    | IntakeDraft(round: int) | IntakeVerdict(round: int)

  type Files = map<Path, string>

  /** `read_file`: the contents, or "" when the file does not exist. */
  function Read(files: Files, p: Path): (r: string)
    ensures p in files ==> r == files[p]
    ensures p !in files ==> r == ""
  {
    if p in files then files[p] else ""
  }

  datatype Status = Running | Pass | Fail

  /** The contents of `state.json`: `{"iteration": N, "status": ...}`. */
  datatype State = State(iteration: int, status: Status)

  /** `load_state`: the stored state, or iteration 0 and running when there is none. */
  function LoadState(stored: Option<State>): (st: State)
    ensures stored.None? ==> st == State(0, Running)
  {
    match stored
    case None => State(0, Running)
    case Some(s) => s
  }

  /** A finished run: `main` does nothing more in this workspace. */
  predicate Finished(st: State) {
    st.status == Pass || st.status == Fail
  }

  /** The workspace directory as the orchestrator mutates it. */
  class Store {
    var files: Files
    /** `state.json`, absent before the first save. */
    var state: Option<State>

    constructor (files: Files, state: Option<State>)
      ensures this.files == files && this.state == state
    {
      this.files := files;
      this.state := state;
    }

    /** `write_file`: create or overwrite one file. */
    method Write(p: Path, content: string)
      modifies this
      ensures files == old(files)[p := content] && state == old(state)
    {
      files := files[p := content];
    }

    /** `open(path, "a").write(text)`: extend a file, creating it when absent. */
    method Append(p: Path, text: string)
      modifies this
      ensures files == old(files)[p := Read(old(files), p) + text] && state == old(state)
    {
      files := files[p := Read(files, p) + text];
    }

    /** `unlink(missing_ok=True)`. */
    method Remove(p: Path)
      modifies this
      ensures files == old(files) - {p} && state == old(state)
    {
      files := files - {p};
    }

    /** `save_state`. */
    method SaveState(st: State)
      modifies this
      ensures state == Some(st) && files == old(files)
    {
      state := Some(st);
    }
  }

  // ---------------------------------------------------------------------------
  // Directory names and the order of `sorted(workspace.glob("iter-*"))`

  /** The name of iteration `n`'s directory, `f"iter-{n:02d}"`. */
  function IterDirName(n: nat): string {
    "iter-" + Pad2(n)
  }

  /** Python's `<` on strings: code-point lexicographic order. */
  predicate LexLess(s: string, t: string) {
    t != [] && (s == [] || s[0] < t[0] || (s[0] == t[0] && LexLess(s[1..], t[1..])))
  }

  lemma {:induction false} LexLessCommonPrefix(p: string, s: string, t: string)
    ensures LexLess(p + s, p + t) <==> LexLess(s, t)
  {
    if p != [] {
      assert (p + s)[0] == p[0] == (p + t)[0];
      assert (p + s)[1..] == p[1..] + s;
      assert (p + t)[1..] == p[1..] + t;
      LexLessCommonPrefix(p[1..], s, t);
    } else {
      assert p + s == s && p + t == t;
    }
  }

  /** Below 100 the padded name is exactly two digits: tens, then units. */
  lemma Pad2TwoDigits(n: nat)
    requires n < 100
    ensures Pad2(n) == [DigitChar(n / 10), DigitChar(n % 10)]
  {
    if n >= 10 {
      assert Show(n / 10) == [DigitChar(n / 10)];
    }
  }

  /**
   * For iterations 1 to 99 the sorted directory names come in numeric order,
   * so scanning the sorted glob is scanning the iterations in ascending order.
   */
  lemma GlobOrderIsNumeric(n: nat, m: nat)
    requires 1 <= n < m <= 99
    ensures LexLess(IterDirName(n), IterDirName(m))
  {
    Pad2TwoDigits(n);
    Pad2TwoDigits(m);
    LexLessCommonPrefix("iter-", Pad2(n), Pad2(m));
    var x, y := Pad2(n), Pad2(m);
    if n / 10 == m / 10 {
      assert x[0] == y[0] && x[1..] == [x[1]] && y[1..] == [y[1]];
    }
  }

  /** From 100 on the order breaks: `iter-100` sorts before `iter-11`. */
  lemma GlobOrderBreaksAtHundred()
    ensures LexLess(IterDirName(100), IterDirName(11))
  {
    assert Show(100) == "100";
    Pad2TwoDigits(11);
    LexLessCommonPrefix("iter-", Pad2(100), Pad2(11));
  }
}
