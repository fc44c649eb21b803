/**
 * The `tests` session: its positional arguments choose between a plain run of the test
 * runner, a run under coverage with the report on the terminal, and a run under coverage whose
 * markdown report is appended to the CI-provided job summary file.
 */
module TestsSession {
  import opened Common
  import opened Paths
  import opened Sessions
  import opened Layout

  const COVERAGE := "coverage"
  const GITHUB := "github"
  const SUMMARY_VARIABLE := "GITHUB_STEP_SUMMARY"
  const SUITE_VARIABLE := "JSON_SCHEMA_TEST_SUITE"
  const HEADER := "### Coverage\n\n"

  /** How the test runner is driven, with the arguments forwarded to it. */
  datatype Mode =
    | Plain(forwarded: seq<string>)
    | CoverageLocal(forwarded: seq<string>)
    | CoverageCi(forwarded: seq<string>, summary: string)

  /** The leading arguments that select a mode (and are therefore not forwarded). */
  function Selector(m: Mode): seq<string>
  {
    match m
    case Plain(_) => []
    case CoverageLocal(_) => [COVERAGE]
    case CoverageCi(_, _) => [COVERAGE, GITHUB]
  }

  predicate CoverageRequested(posargs: seq<string>)
  {
    |posargs| > 0 && posargs[0] == COVERAGE
  }

  predicate CiRequested(posargs: seq<string>)
  {
    CoverageRequested(posargs) && |posargs| > 1 && posargs[1] == GITHUB
  }

  /**
   * Picking the mode. Only the CI mode can fail: it needs the summary path from the
   * environment (Python raises KeyError when the variable is missing).
   */
  function Route(posargs: seq<string>, environ: map<string, string>): (r: Result<Mode>)
    ensures r.Err? <==> CiRequested(posargs) && SUMMARY_VARIABLE !in environ
    ensures r.Err? ==> r.error == MissingVariable(SUMMARY_VARIABLE)
    ensures r.Ok? ==> Selector(r.value) + r.value.forwarded == posargs
    ensures r.Ok? ==> (r.value.Plain? <==> !CoverageRequested(posargs))
    ensures r.Ok? ==> (r.value.CoverageCi? <==> CiRequested(posargs))
    ensures r.Ok? && r.value.CoverageCi? ==> r.value.summary == environ[SUMMARY_VARIABLE]
  {
    if |posargs| > 0 && posargs[0] == COVERAGE then
      if |posargs| > 1 && posargs[1] == GITHUB then
        if SUMMARY_VARIABLE in environ then Ok(CoverageCi(posargs[2..], environ[SUMMARY_VARIABLE]))
        else Err(MissingVariable(SUMMARY_VARIABLE))
      else Ok(CoverageLocal(posargs[1..]))
    else Ok(Plain(posargs))
  }

  /** A mode agrees with the arguments: it is the one they ask for and it forwards the rest. */
  ghost predicate Fits(posargs: seq<string>, environ: map<string, string>, m: Mode)
  {
    && Selector(m) + m.forwarded == posargs
    && (m.Plain? <==> !CoverageRequested(posargs))
    && (m.CoverageCi? <==> CiRequested(posargs))
    && (m.CoverageCi? ==> SUMMARY_VARIABLE in environ && m.summary == environ[SUMMARY_VARIABLE])
  }

  /** Route picks a mode exactly when the mode fits the arguments, so there is only one. */
  lemma RouteUnique(posargs: seq<string>, environ: map<string, string>, m: Mode)
    ensures Route(posargs, environ) == Ok(m) <==> Fits(posargs, environ, m)
  {
    if Fits(posargs, environ, m) {
      var k := |Selector(m)|;
      assert posargs[..k] == Selector(m);
      assert m.forwarded == posargs[k..];
    }
  }

  /** The environment both test commands run with. */
  function SuiteEnv(root: Path): map<string, Arg>
  {
    map[SUITE_VARIABLE := File(TestSuite(root))]
  }

  function TestDependencies(installable: string): seq<Arg>
  {
    [Lit("--group=test"), Lit(installable)]
  }

  function CoveragePackages(): seq<Arg>
  {
    [Lit("coverage[toml]")]
  }

  function VirtueArgv(forwarded: seq<string>, root: Path): seq<Arg>
  {
    [Lit("virtue")] + Lits(forwarded) + [File(Package(root))]
  }

  function CoverageRunArgv(forwarded: seq<string>, root: Path): seq<Arg>
  {
    Lits([COVERAGE, "run"]) + Lits(forwarded) + Lits(["-m", "virtue"]) + [File(Package(root))]
  }

  /** The commands of a coverage run; the report goes to the summary file when there is one. */
  function CoverageEvents(forwarded: seq<string>, root: Path, summary: Option<string>): (ev: seq<Event>)
    ensures |ev| == 3 && ev[0] == Install([Lit("coverage[toml]")])
    ensures ev[1].Run? && |ev[1].argv| == |forwarded| + 5 && ev[1].argv[..2] == [Lit("coverage"), Lit("run")]
    ensures ev[1].env == map["JSON_SCHEMA_TEST_SUITE" := File(TestSuite(root))] && ev[1].stdout == Terminal
    ensures ev[1].argv[2..|forwarded| + 2] == Lits(forwarded)
    ensures ev[1].argv[|forwarded| + 2..] == [Lit("-m"), Lit("virtue"), File(Package(root))]
    ensures ev[2].Run? && |ev[2].argv| >= 2 && ev[2].argv[..2] == [Lit("coverage"), Lit("report")] && ev[2].env == map[]
    ensures ev[2].argv[2..] == if summary.Some? then [Lit("--format=markdown")] else []
    ensures ev[2].stdout == match summary case None => Terminal case Some(p) => IntoFile(p)
  {
    [ Install(CoveragePackages()),
      Run(CoverageRunArgv(forwarded, root), SuiteEnv(root), Terminal),
      match summary
      case None => Run(Lits([COVERAGE, "report"]), map[], Terminal)
      case Some(p) => Run(Lits([COVERAGE, "report", "--format=markdown"]), map[], IntoFile(p)) ]
  }

  /** What the body does after installing the test dependencies, for each routing outcome. */
  function ModeEvents(route: Result<Mode>, root: Path): (ev: seq<Event>)
    ensures route.Err? ==> ev == [ReadEnv(SUMMARY_VARIABLE)]
    ensures route.Ok? ==> |ev| >= 1 && ev[|ev| - 1].Run?
    ensures (route.Ok? && route.value.CoverageCi?) ==> ev[0].ReadEnv?
    ensures forall i :: 0 <= i < |ev| && ev[i].ReadEnv? ==> i == 0 && (route.Err? || route.value.CoverageCi?)
    ensures forall i :: 0 <= i < |ev| && ev[i].Run? && ev[i].stdout.IntoFile? ==>
      i == |ev| - 1 && route.Ok? && route.value.CoverageCi? && ev[i].stdout.path == route.value.summary
  {
    match route
    case Err(_) => [ReadEnv(SUMMARY_VARIABLE)]
    case Ok(Plain(f)) => [Run(VirtueArgv(f, root), SuiteEnv(root), Terminal)]
    case Ok(CoverageLocal(f)) => CoverageEvents(f, root, None)
    case Ok(CoverageCi(f, p)) => [ReadEnv(SUMMARY_VARIABLE)] + CoverageEvents(f, root, Some(p))
  }

  /** What the session body does, in order. */
  function TestsEvents(posargs: seq<string>, environ: map<string, string>, root: Path, installable: string): (ev: seq<Event>)
    ensures |ev| >= 2 && ev[0] == Install([Lit("--group=test"), Lit(installable)])
    ensures (exists i :: 0 <= i < |ev| && ev[i].ReadEnv?) <==> CiRequested(posargs)
    ensures (exists i :: 0 <= i < |ev| && ev[i].Run?) <==> Route(posargs, environ).Ok?
    ensures forall i :: 0 <= i < |ev| && ev[i].Run? && ev[i].stdout.IntoFile? ==>
      i == |ev| - 1 && CiRequested(posargs) && SUMMARY_VARIABLE in environ && ev[i].stdout.path == environ[SUMMARY_VARIABLE]
  {
    var route := Route(posargs, environ);
    var mode := ModeEvents(route, root);
    var ev := [Install(TestDependencies(installable))] + mode;
    AfterInstall(ev[0], mode);
    assert CiRequested(posargs) ==> mode[0].ReadEnv?;
    assert route.Ok? ==> mode[|mode| - 1].Run?;
    ev
  }

  /** Putting an install in front of some events adds no lookup and no run, and shifts the rest by one. */
  lemma AfterInstall(head: Event, rest: seq<Event>)
    requires head.Install?
    ensures var ev := [head] + rest;
      && ((exists i :: 0 <= i < |ev| && ev[i].ReadEnv?) <==> (exists i :: 0 <= i < |rest| && rest[i].ReadEnv?))
      && ((exists i :: 0 <= i < |ev| && ev[i].Run?) <==> (exists i :: 0 <= i < |rest| && rest[i].Run?))
      && forall i :: 1 <= i < |ev| ==> ev[i] == rest[i - 1]
  {
    var ev := [head] + rest;
    forall i | 0 <= i < |ev| && (ev[i].ReadEnv? || ev[i].Run?)
      ensures 0 <= i - 1 < |rest| && ev[i] == rest[i - 1]
    {
    }
    forall i | 0 <= i < |rest|
      ensures ev[i + 1] == rest[i]
    {
    }
  }

  /**
   * The commands of the body, spelled out for each way the arguments can ask: everything after
   * the selector words reaches the test command, between its fixed head and `PACKAGE`.
   */
  lemma TestsCommandLines(posargs: seq<string>, environ: map<string, string>, root: Path, installable: string)
    ensures var ev := TestsEvents(posargs, environ, root, installable);
      var deps, pkg := Install([Lit("--group=test"), Lit(installable)]), File(Package(root));
      var env := map["JSON_SCHEMA_TEST_SUITE" := File(TestSuite(root))];
      var coverage := |posargs| > 0 && posargs[0] == "coverage";
      var github := coverage && |posargs| > 1 && posargs[1] == "github";
      var summary := "GITHUB_STEP_SUMMARY";
      && (!coverage ==>
            ev == [deps, Run([Lit("virtue")] + Lits(posargs) + [pkg], env, Terminal)])
      && (coverage && !github ==>
            ev == [ deps, Install([Lit("coverage[toml]")]),
                    Run(Lits(["coverage", "run"]) + Lits(posargs[1..]) + Lits(["-m", "virtue"]) + [pkg], env, Terminal),
                    Run(Lits(["coverage", "report"]), map[], Terminal) ])
      && (github && summary !in environ ==>
            ev == [deps, ReadEnv(summary)])
      && (github && summary in environ ==>
            ev == [ deps, ReadEnv(summary), Install([Lit("coverage[toml]")]),
                    Run(Lits(["coverage", "run"]) + Lits(posargs[2..]) + Lits(["-m", "virtue"]) + [pkg], env, Terminal),
                    Run(Lits(["coverage", "report", "--format=markdown"]), map[], IntoFile(environ[summary])) ])
  {
    var route := Route(posargs, environ);
    assert TestsEvents(posargs, environ, root, installable) == [Install(TestDependencies(installable))] + ModeEvents(route, root);
    if !CoverageRequested(posargs) {
      assert route == Ok(Plain(posargs));
    } else if !CiRequested(posargs) {
      assert route == Ok(CoverageLocal(posargs[1..]));
    } else if SUMMARY_VARIABLE in environ {
      assert route == Ok(CoverageCi(posargs[2..], environ[SUMMARY_VARIABLE]));
    }
  }

  /** The files after the body: only the CI mode changes one, by appending the header and then the report. */
  function FilesAfter(files: map<string, string>, route: Result<Mode>, report: string): (after: map<string, string>)
    ensures files.Keys <= after.Keys
    ensures forall q :: q in files ==> |files[q]| <= |after[q]| && after[q][..|files[q]|] == files[q]
    ensures forall q :: q in after && (q !in files || after[q] != files[q]) ==> route.Ok? && route.value.CoverageCi? && q == route.value.summary
  {
    match route
    case Ok(CoverageCi(_, p)) => files[p := Existing(files, p) + HEADER + report]
    case _ => files
  }

  /**
   * In CI mode the summary variable is read right after the test dependencies are installed,
   * before coverage is installed and before any command runs; when it is missing, nothing
   * else happens.
   */
  lemma SummaryReadBeforeCoverage(posargs: seq<string>, environ: map<string, string>, root: Path, installable: string)
    requires CiRequested(posargs)
    ensures var ev := TestsEvents(posargs, environ, root, installable);
      && ev[..2] == [Install(TestDependencies(installable)), ReadEnv(SUMMARY_VARIABLE)]
      && (SUMMARY_VARIABLE !in environ ==> |ev| == 2)
      && (forall i :: 0 <= i < |ev| && (ev[i].Run? || ev[i] == Install(CoveragePackages())) ==> 2 <= i)
  {
  }

  /** The summary file keeps what it held and gains the header, then the report, at its end. */
  lemma SummaryAppended(files: map<string, string>, posargs: seq<string>, environ: map<string, string>, report: string)
    requires CiRequested(posargs) && SUMMARY_VARIABLE in environ
    ensures var p := environ[SUMMARY_VARIABLE];
      var after := FilesAfter(files, Route(posargs, environ), report);
      var prior := Existing(files, p);
      && p in after
      && after[p][..|prior|] == prior
      && after[p][|prior|..|prior| + 14] == "### Coverage\n\n"
      && after[p][|prior| + 14..] == report
      && forall q :: q != p ==> (q in after <==> q in files) && (q in files ==> after[q] == files[q])
  {
  }

  /** Installing coverage, running the tests under it and writing its report (lines 72-94). */
  method RunUnderCoverage(s: Session, root: Path, forwarded: seq<string>, github: Option<string>, report: string)
    modifies s
    ensures s.trace == old(s.trace) + CoverageEvents(forwarded, root, github)
    ensures s.files == match github
      case None => old(s.files)
      case Some(p) => old(s.files)[p := Existing(old(s.files), p) + HEADER + report]
  {
    s.Install(CoveragePackages());
    s.Run(CoverageRunArgv(forwarded, root), SuiteEnv(root));
    if github.None? {
      s.Run(Lits([COVERAGE, "report"]), map[]);
    } else {
      ghost var p, prior := github.value, Existing(s.files, github.value);
      var summary := s.OpenAppend(github.value);
      summary.Write(HEADER);
      s.Flush(summary);
      assert Existing(s.files, p) == prior + HEADER;
      s.RunInto(Lits([COVERAGE, "report", "--format=markdown"]), map[], summary, report);
      assert Existing(s.files, p) == prior + HEADER + report;
      s.Close(summary);
      assert prior + HEADER + report + "" == prior + HEADER + report;
      assert s.files == old(s.files)[p := prior + HEADER + report];
    }
  }

  /** The `tests` session body for one installable (a path, optionally with extras). */
  method Tests(s: Session, root: Path, installable: string, report: string) returns (outcome: Outcome)
    modifies s
    ensures outcome == match Route(s.posargs, s.environ) case Err(e) => Fail(e) case Ok(_) => Pass
    ensures s.trace == old(s.trace) + TestsEvents(s.posargs, s.environ, root, installable)
    ensures s.files == FilesAfter(old(s.files), Route(s.posargs, s.environ), report)
  {
    ghost var route := Route(s.posargs, s.environ);
    assert TestsEvents(s.posargs, s.environ, root, installable) == [Install(TestDependencies(installable))] + ModeEvents(route, root);
    s.Install(TestDependencies(installable));
    if |s.posargs| > 0 && s.posargs[0] == COVERAGE {
      if |s.posargs| > 1 && s.posargs[1] == GITHUB {
        var posargs := s.posargs[2..];
        var v := s.GetEnv(SUMMARY_VARIABLE);
        if v.None? {
          return Fail(MissingVariable(SUMMARY_VARIABLE));
        }
        assert route == Ok(CoverageCi(posargs, v.value));
        RunUnderCoverage(s, root, posargs, Some(v.value), report);
      } else {
        assert route == Ok(CoverageLocal(s.posargs[1..]));
        RunUnderCoverage(s, root, s.posargs[1..], None, report);
      }
    } else {
      s.Run(VirtueArgv(s.posargs, root), SuiteEnv(root));
    }
    outcome := Pass;
  }
}
