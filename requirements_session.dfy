/**
 * The `requirements` session: recompile each pinned requirements file from its `.in` file,
 * one after another in the order of REQUIREMENTS_IN, with uv when nox chose the uv backend and
 * with pip-tools otherwise.
 */
module RequirementsSession {
  import opened Common
  import opened Paths
  import opened Sessions
  import opened Layout

  const UV := "uv"

  /** The resolver command for a virtualenv backend. */
  function CompileCommand(backend: string): (cmd: seq<Arg>)
    ensures |cmd| >= 3 && forall i :: 0 <= i < |cmd| ==> cmd[i].Lit?
    ensures cmd[0] == Lit("uv") <==> backend == UV
    ensures backend != UV ==> cmd[0] == Lit("pip-compile")
  {
    if backend == UV then Lits(["uv", "pip", "compile"])
    else Lits(["pip-compile", "--resolver", "backtracking", "--strip-extras"])
  }

  /** pip-tools is installed only when uv is not there to do the compiling. */
  function SetupEvents(backend: string): (ev: seq<Event>)
    ensures |ev| <= 1 && (ev != [] <==> backend != UV)
    ensures forall i :: 0 <= i < |ev| ==> ev[i] == Install([Lit("pip-tools")])
  {
    if backend == UV then [] else [Install([Lit("pip-tools")])]
  }

  function CompileArgv(cmd: seq<Arg>, output: Path, relative: Path): seq<Arg>
  {
    cmd + [Lit("--upgrade"), Lit("--output-file"), File(output), File(relative)]
  }

  /** The compile run of one pair, given its input's path relative to the root. */
  function CompileRun(cmd: seq<Arg>, output: Path, relative: Path): Event
  {
    Run(CompileArgv(cmd, output, relative), map[], Terminal)
  }

  /**
   * Running the chain: the compile runs issued and how the body ends. A pair whose input is
   * not below the root, or whose compile command fails, ends the session there.
   */
  function Chain(cmd: seq<Arg>, root: Path, pairs: seq<(Path, Path)>, succeeds: seq<Arg> -> bool): (c: (seq<Event>, Outcome))
    ensures |c.0| <= |pairs|
    decreases |pairs|
  {
    if pairs == [] then ([], Pass)
    else
      match RelativeTo(pairs[0].0, root)
      case None => ([], Fail(NotRelative(pairs[0].0, root)))
      case Some(relative) =>
        var run := CompileRun(cmd, pairs[0].1, relative);
        if !succeeds(run.argv) then ([run], Fail(CommandFailed(run.argv)))
        else
          var rest := Chain(cmd, root, pairs[1..], succeeds);
          ([run] + rest.0, rest.1)
  }

  /**
   * What a chain run looks like: the i-th event is the compile run of the i-th pair, every
   * run but the last succeeded, and the outcome says where and why the chain stopped.
   */
  lemma {:induction false} ChainShape(cmd: seq<Arg>, root: Path, pairs: seq<(Path, Path)>, succeeds: seq<Arg> -> bool)
    ensures var (runs, outcome) := Chain(cmd, root, pairs, succeeds);
      && (forall i :: 0 <= i < |runs| ==>
            && RelativeTo(pairs[i].0, root).Some?
            && runs[i] == Run(cmd + [Lit("--upgrade"), Lit("--output-file"), File(pairs[i].1), File(RelativeTo(pairs[i].0, root).value)], map[], Terminal))
      && (forall i :: 0 <= i < |runs| - 1 ==> runs[i].Run? && succeeds(runs[i].argv))
      && (outcome.Pass? <==> |runs| == |pairs| && forall i :: 0 <= i < |runs| ==> runs[i].Run? && succeeds(runs[i].argv))
      && (outcome.Fail? ==> outcome.error.NotRelative? || outcome.error.CommandFailed?)
      && (outcome.Fail? && outcome.error.NotRelative? ==>
            |runs| < |pairs| && RelativeTo(pairs[|runs|].0, root).None? && outcome.error == NotRelative(pairs[|runs|].0, root))
      && (outcome.Fail? && outcome.error.CommandFailed? ==>
            |runs| > 0 && runs[|runs| - 1].Run? && outcome.error.argv == runs[|runs| - 1].argv && !succeeds(outcome.error.argv))
    decreases |pairs|
  {
    ChainRuns(cmd, root, pairs, succeeds);
    if pairs != [] && RelativeTo(pairs[0].0, root).Some? {
      var tail := pairs[1..];
      ChainShape(cmd, root, tail, succeeds);
      assert forall i :: 0 <= i < |tail| ==> tail[i] == pairs[i + 1];
    }
  }

  /**
   * The i-th run of a chain is the resolver command with `--upgrade`, then `--output-file`
   * and the i-th output, and last the i-th input relative to the root, on the terminal.
   */
  lemma {:induction false} ChainRuns(cmd: seq<Arg>, root: Path, pairs: seq<(Path, Path)>, succeeds: seq<Arg> -> bool)
    ensures var runs := Chain(cmd, root, pairs, succeeds).0;
      forall i :: 0 <= i < |runs| ==>
        && RelativeTo(pairs[i].0, root).Some?
        && runs[i] == Run(cmd + [Lit("--upgrade"), Lit("--output-file"), File(pairs[i].1), File(RelativeTo(pairs[i].0, root).value)], map[], Terminal)
    decreases |pairs|
  {
    if pairs != [] && RelativeTo(pairs[0].0, root).Some? {
      var tail := pairs[1..];
      ChainRuns(cmd, root, tail, succeeds);
      assert forall i :: 0 <= i < |tail| ==> tail[i] == pairs[i + 1];
    }
  }

  /** One step of the chain: the first pair is attempted before any of the others. */
  lemma ChainUnfold(cmd: seq<Arg>, root: Path, pairs: seq<(Path, Path)>, succeeds: seq<Arg> -> bool)
    requires pairs != []
    ensures var c := Chain(cmd, root, pairs, succeeds);
      match RelativeTo(pairs[0].0, root)
      case None => c == ([], Fail(NotRelative(pairs[0].0, root)))
      case Some(relative) =>
        var argv := CompileArgv(cmd, pairs[0].1, relative);
        if succeeds(argv) then c == ([CompileRun(cmd, pairs[0].1, relative)] + Chain(cmd, root, pairs[1..], succeeds).0, Chain(cmd, root, pairs[1..], succeeds).1)
        else c == ([CompileRun(cmd, pairs[0].1, relative)], Fail(CommandFailed(argv)))
  {
  }

  /**
   * When the compile run of entry k fails after every earlier one succeeded, entry k is the
   * last one attempted: the entries after it are never run.
   */
  lemma {:induction false} ChainStopsAtFailure(cmd: seq<Arg>, root: Path, pairs: seq<(Path, Path)>, succeeds: seq<Arg> -> bool, k: nat)
    requires k < |pairs|
    requires forall i :: 0 <= i <= k ==> RelativeTo(pairs[i].0, root).Some?
    requires forall i :: 0 <= i < k ==> succeeds(CompileArgv(cmd, pairs[i].1, RelativeTo(pairs[i].0, root).value))
    requires !succeeds(CompileArgv(cmd, pairs[k].1, RelativeTo(pairs[k].0, root).value))
    ensures |Chain(cmd, root, pairs, succeeds).0| == k + 1
    ensures Chain(cmd, root, pairs, succeeds).1 == Fail(CommandFailed(CompileArgv(cmd, pairs[k].1, RelativeTo(pairs[k].0, root).value)))
    decreases k
  {
    if k > 0 {
      assert succeeds(CompileArgv(cmd, pairs[0].1, RelativeTo(pairs[0].0, root).value));
      var tail := pairs[1..];
      assert forall i :: 0 <= i < |tail| ==> tail[i] == pairs[i + 1];
      ChainStopsAtFailure(cmd, root, tail, succeeds, k - 1);
    }
  }

  /** A chain issues nothing but runs. */
  lemma ChainOnlyRuns(cmd: seq<Arg>, root: Path, pairs: seq<(Path, Path)>, succeeds: seq<Arg> -> bool)
    ensures forall i :: 0 <= i < |Chain(cmd, root, pairs, succeeds).0| ==> Chain(cmd, root, pairs, succeeds).0[i].Run?
  {
    ChainShape(cmd, root, pairs, succeeds);
  }

  /** The events of the whole session body. */
  function RequirementsEvents(backend: string, root: Path, pairs: seq<(Path, Path)>, succeeds: seq<Arg> -> bool): (ev: seq<Event>)
    ensures |ev| <= |pairs| + (if backend == UV then 0 else 1)
    ensures backend != UV ==> |ev| > 0 && ev[0] == Install([Lit("pip-tools")])
    ensures backend == UV ==> ev == Chain(CompileCommand(backend), root, pairs, succeeds).0
  {
    SetupEvents(backend) + Chain(CompileCommand(backend), root, pairs, succeeds).0
  }

  /** The session installs something iff the backend is not uv; everything else it does is a compile run. */
  lemma PipToolsOnlyWithoutUv(backend: string, root: Path, pairs: seq<(Path, Path)>, succeeds: seq<Arg> -> bool)
    ensures var ev := RequirementsEvents(backend, root, pairs, succeeds);
      && ((exists i :: 0 <= i < |ev| && ev[i].Install?) <==> backend != UV)
      && forall i :: |SetupEvents(backend)| <= i < |ev| ==> ev[i].Run?
  {
    var cmd := CompileCommand(backend);
    var setup, runs := SetupEvents(backend), Chain(cmd, root, pairs, succeeds).0;
    ChainOnlyRuns(cmd, root, pairs, succeeds);
    var ev := setup + runs;
    assert ev == RequirementsEvents(backend, root, pairs, succeeds);
    forall i | |setup| <= i < |ev| ensures ev[i].Run? {
      assert ev[i] == runs[i - |setup|];
    }
    if backend != UV {
      assert ev[0].Install?;
    }
  }

  /** For this repository: one compile of docs/requirements.in into docs/requirements.txt. */
  lemma RepositoryChain(backend: string, root: Path, succeeds: seq<Arg> -> bool)
    ensures var relative := Path("", ["docs", "requirements.in"]);
      RequirementsEvents(backend, root, RequirementsIn(RequirementsOutputs(root)), succeeds)
        == SetupEvents(backend)
           + [Run(CompileCommand(backend) + [Lit("--upgrade"), Lit("--output-file"), File(DocsRequirements(root)), File(relative)], map[], Terminal)]
  {
    RequirementsChainOfRepository(root);
    var input := Join(DocsDir(root), "requirements.in");
    assert input.parts == root.parts + ["docs", "requirements.in"];
    assert input.parts[|root.parts|..] == ["docs", "requirements.in"];
    assert RelativeTo(input, root) == Some(Path("", ["docs", "requirements.in"]));
  }

  /** The loop of lines 266-269: one compile run per pair, in order, stopping at the first failure. */
  method CompileAll(s: Session, cmd: seq<Arg>, root: Path, pairs: seq<(Path, Path)>, succeeds: seq<Arg> -> bool) returns (outcome: Outcome)
    modifies s
    ensures s.trace == old(s.trace) + Chain(cmd, root, pairs, succeeds).0
    ensures outcome == Chain(cmd, root, pairs, succeeds).1
    ensures s.files == old(s.files)
  {
    ghost var done: seq<Event> := [];
    var i := 0;
    assert pairs[i..] == pairs;
    while i < |pairs|
      invariant 0 <= i <= |pairs|
      invariant s.files == old(s.files)
      invariant s.trace == old(s.trace) + done
      invariant Chain(cmd, root, pairs, succeeds).0 == done + Chain(cmd, root, pairs[i..], succeeds).0
      invariant Chain(cmd, root, pairs, succeeds).1 == Chain(cmd, root, pairs[i..], succeeds).1
    {
      var (input, output) := pairs[i];
      assert pairs[i..][0] == pairs[i] && pairs[i..][1..] == pairs[i + 1..];
      ChainUnfold(cmd, root, pairs[i..], succeeds);
      var relative := RelativeTo(input, root);
      if relative.None? {
        return Fail(NotRelative(input, root));
      }
      var argv := CompileArgv(cmd, output, relative.value);
      s.Run(argv, map[]);
      ghost var rest := Chain(cmd, root, pairs[i + 1..], succeeds).0;
      assert done + ([CompileRun(cmd, output, relative.value)] + rest) == (done + [CompileRun(cmd, output, relative.value)]) + rest;
      done := done + [CompileRun(cmd, output, relative.value)];
      if !succeeds(argv) {
        return Fail(CommandFailed(argv));
      }
      i := i + 1;
    }
    assert pairs[i..] == [];
    assert done + [] == done;
    outcome := Pass;
  }

  /** The `requirements` session body over the ordered (input, output) pairs. */
  method Requirements(s: Session, root: Path, pairs: seq<(Path, Path)>, succeeds: seq<Arg> -> bool) returns (outcome: Outcome)
    modifies s
    ensures s.trace == old(s.trace) + RequirementsEvents(s.venvBackend, root, pairs, succeeds)
    ensures outcome == Chain(CompileCommand(s.venvBackend), root, pairs, succeeds).1
    ensures s.files == old(s.files)
  {
    var cmd: seq<Arg>;
    if s.venvBackend == UV {
      cmd := Lits(["uv", "pip", "compile"]);
    } else {
      s.Install([Lit("pip-tools")]);
      cmd := Lits(["pip-compile", "--resolver", "backtracking", "--strip-extras"]);
    }
    assert cmd == CompileCommand(s.venvBackend);
    assert s.trace == old(s.trace) + SetupEvents(s.venvBackend);
    outcome := CompileAll(s, cmd, root, pairs, succeeds);
  }
}
