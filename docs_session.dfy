/** The `docs` session: one Sphinx build per builder, into the given or a temporary directory. */
module DocsSession {
  import opened Paths
  import opened Sessions
  import opened Layout

  const SPELLING := "spelling"

  /** The options every build gets; all builders but the spell checker are also made quiet. */
  function SphinxFlags(builder: string): (argv: seq<string>)
    ensures |argv| >= 3 && argv[..3] == ["-n", "-T", "-W"]
    ensures "-q" in argv <==> builder != SPELLING
    ensures |argv| == if builder == SPELLING then 3 else 4
  {
    if builder != SPELLING then ["-n", "-T", "-W", "-q"] else ["-n", "-T", "-W"]
  }

  /** Where the build goes: the positional arguments, or else the builder's directory under `tmpdir`. */
  function OutputArgs(posargs: seq<string>, tmpdir: Path, builder: string): (out: seq<Arg>)
    ensures posargs != [] ==> out == Lits(posargs)
    ensures posargs == [] ==> |out| == 1 && out[0].File? && Parent(out[0].path) == tmpdir && Name(out[0].path) == builder
  {
    if posargs != [] then Lits(posargs) else [File(Join(tmpdir, builder))]
  }

  function SphinxPrefix(builder: string, root: Path): seq<Arg>
  {
    Lits(["python", "-m", "sphinx", "-b", builder]) + [File(DocsDir(root))]
  }

  /** The whole Sphinx command line. */
  function DocsArgv(builder: string, posargs: seq<string>, tmpdir: Path, root: Path): (argv: seq<Arg>)
    ensures |argv| == 6 + |SphinxFlags(builder)| + |OutputArgs(posargs, tmpdir, builder)|
    ensures argv[..4] == Lits(["python", "-m", "sphinx", "-b"])
  {
    SphinxPrefix(builder, root) + Lits(SphinxFlags(builder)) + OutputArgs(posargs, tmpdir, builder)
  }

  /**
   * The command line names the builder and the docs directory, then the flags (starting with
   * -n -T -W, with -q exactly when the builder is not `spelling`), then the output arguments last.
   */
  lemma DocsArgvLayout(builder: string, posargs: seq<string>, tmpdir: Path, root: Path)
    ensures var argv := DocsArgv(builder, posargs, tmpdir, root);
      var flags := SphinxFlags(builder);
      && argv[4] == Lit(builder) && argv[5] == File(DocsDir(root))
      && argv[6..9] == Lits(["-n", "-T", "-W"])
      && (Lit("-q") in argv[6..6 + |flags|] <==> builder != SPELLING)
      && argv[6 + |flags|..] == OutputArgs(posargs, tmpdir, builder)
  {
  }

  /** The `docs` session body for one builder; `tmpdir` is the fresh temporary directory. */
  method Docs(s: Session, root: Path, builder: string, tmpdir: Path)
    modifies s
    ensures s.trace == old(s.trace) + [
      Install([Lit("-r"), File(DocsRequirements(root))]),
      Run(DocsArgv(builder, s.posargs, tmpdir, root), map[], Terminal) ]
    ensures s.files == old(s.files)
  {
    s.Install([Lit("-r"), File(DocsRequirements(root))]);
    var argv := ["-n", "-T", "-W"];
    if builder != SPELLING {
      argv := argv + ["-q"];
    }
    assert argv == SphinxFlags(builder);
    var posargs := if s.posargs != [] then Lits(s.posargs) else [File(Join(tmpdir, builder))];
    assert posargs == OutputArgs(s.posargs, tmpdir, builder);
    s.Run(SphinxPrefix(builder, root) + Lits(argv) + posargs, map[]);
  }
}
