# A model of the jsonschema noxfile's session logic

The repository's `noxfile.py` configures the `nox` task runner. Most of it is data handed to
nox, but four pieces hold decisions and ordering of their own, and this project models those
in Dafny and proves properties about them:

- **Default-session registration.** The file's own `session` decorator factory appends a
  session's name to `nox.options.sessions`, the list of sessions nox runs by default. The
  class `Registration.Registry` holds that list. `DefaultNames` is the list that a sequence
  of declarations produces, and the lemmas show that it keeps declaration order and ignores
  non-default sessions. `DeclareNoxfile` replays the file's eleven decorators.
- **The `tests` session.** The positional arguments select one of three modes
  (`TestsSession.Route`). Plain mode runs `virtue` directly. Coverage-local mode
  (`coverage ...`) runs the tests under coverage and prints the report. Coverage-CI mode
  (`coverage github ...`) also needs `GITHUB_STEP_SUMMARY`, and appends a header and then the
  markdown report to the summary file that variable names. `TestsSession.Tests` is the session
  body. It is proved against a trace of recorded events and against the final file contents.
- **The `docs` session.** This session builds the Sphinx command line: fixed flags, `-q` for
  every builder except `spelling`, and the output directory.
- **The `requirements` session.** `REQUIREMENTS_IN` pairs each pinned output file with its
  `.in` sibling. The session picks a compile command from the virtualenv backend, then compiles
  each pair in list order and stops at the first failure.

External tools are never run. A `Sessions.Session` object records what a session body does as
a sequence of events: `Install`, `Run` (with its argument list, environment and the stdout
target) and `ReadEnv`. The object also holds the process environment and the text of the files
the body writes. A file opened for append (`Sessions.SummaryHandle`) has its own write buffer.
A child process writes straight to the file and skips that buffer, so the header written at
`noxfile.py:87` reaches the file before the report only because of the flush on line 88.

The project root (the directory holding `noxfile.py`), the temporary directory of a docs
build, the installable passed to `tests`, the text `coverage report` produces, the virtualenv
backend nox chose and `os.environ` are parameters.

Files: `common.dfy` (Option), `paths.dfy` (the pathlib operations used), `sessions.dfy` (the
recorder), `layout.dfy` (paths derived from the root, `REQUIREMENTS_IN`), `registration.dfy`,
`tests_session.dfy`, `docs_session.dfy`, `requirements_session.dfy`.

## Model

| member | source | states |
|---|---|---|
| `Paths.Name` | noxfile.py:25 | a path with no components has the empty name; otherwise the parent's components followed by the name are the path again |
| `Paths.Parent` | noxfile.py:25 | the parent keeps the anchor, and its components are the path's without the last one (a path with none is its own parent) |
| `Paths.Join` | noxfile.py:209 | `p / name` has `name` as its final component and `p` as its parent, with the same anchor and one more component |
| `Paths.LastDot` | noxfile.py:25 | the index of the last `.` in a name, or -1 exactly when the name has no dot |
| `Paths.Stem` | noxfile.py:25 | the stem is a prefix of the name, and it is non-empty whenever the name is |
| `Paths.Suffix` | noxfile.py:25 | a suffix is empty, or a dot followed by at least one character and no further dot. It is non-empty exactly when the name's last dot is neither its first nor its last character, and then it is the end of the name |
| `Paths.StemSuffixSplit` | noxfile.py:25 | stem followed by suffix gives the name back; a non-empty name has a non-empty stem |
| `Paths.RelativeTo` | noxfile.py:268 | `relative_to` succeeds exactly when the root is the path or one of its ancestors, and the root joined with the result is the path again |
| `Layout.Package` | noxfile.py:8 | `PACKAGE` is the child `jsonschema` of the root |
| `Layout.DocsDir` | noxfile.py:12 | `DOCS` is the child `docs` of the root |
| `Layout.TestSuite` | noxfile.py:61 | the test suite directory is the child `json` of the root |
| `Layout.DocsRequirements` | noxfile.py:21-23 | the docs requirements file sits in `DOCS`, is named `requirements.txt`, with stem `requirements` and suffix `.txt` |
| `Layout.RequirementsOutputs` | noxfile.py:21-23 | there is one pinned output, and every output lies under the root and has a non-empty name with suffix `.txt` |
| `Layout.InputFor` | noxfile.py:25 | the input file sits in the output's directory and is named after the output's stem with `.in` added |
| `Layout.RequirementsIn` | noxfile.py:24-26 | one pair per output, in the outputs' order, each output paired with its `.in` sibling |
| `Layout.SiblingInput` | noxfile.py:24-26 | an input has the same parent and stem as its output and the suffix `.in` |
| `Layout.RequirementsChainOfRepository` | noxfile.py:21-26 | the repository's chain is exactly `docs/requirements.in` -> `docs/requirements.txt` |
| `Registration.ResolvedName` | noxfile.py:49 | a declaration resolves to its `name` keyword when it has one, and to its function name otherwise |
| `Registration.NoxfileDeclarations` | noxfile.py:55-253 | the file declares eleven sessions with distinct function names. Exactly `bench` and `requirements` are not default, and only `docs_style` has a `name` keyword |
| `Registration.DefaultNames` | noxfile.py:43-49 | declarations never add more names than there are declarations |
| `Registration.DefaultNamesAppend` | noxfile.py:43-49 | the default list of two declaration phases is the first phase's list followed by the second's |
| `Registration.NonDefaultInvisible` | noxfile.py:48 | a `default=False` declaration leaves the default list the same wherever it appears |
| `Registration.DefaultNamesMembership` | noxfile.py:48-49 | a name is on the list iff some default declaration resolves to it (its `name` keyword, else its function name) |
| `Registration.DefaultNamesAt` | noxfile.py:48-49 | a default declaration's name stands in the list right after the names contributed by the declarations before it |
| `Registration.DefaultNamesOrder` | noxfile.py:43-49 | of two default declarations, the earlier one's name stands earlier in the list |
| `Registration.NoxfileDefaults` | noxfile.py:43-253 | the file's default list is every session except `bench` and `requirements`, in file order, with `docs_style` listed as `docs(style)` |
| `Registration.Registry.constructor` | noxfile.py:43 | the default list starts empty |
| `Registration.Registry.Register` | noxfile.py:46-52 | `default=False` leaves the list unchanged; `default=True` appends exactly the `name` keyword, or else the function name, after the earlier entries |
| `Registration.DeclareNoxfile` | noxfile.py:43-253 | loading the file leaves the registry holding `DefaultNames` of its declarations, which is the nine default session names |
| `Sessions.Session.Install` | noxfile.py:63 | an install is recorded at the end of the trace and touches no file |
| `Sessions.Session.Run` | noxfile.py:96 | a run is recorded with its arguments and environment, with output on the terminal, and touches no file |
| `Sessions.Session.GetEnv` | noxfile.py:68 | the lookup is recorded, and yields the variable's value or nothing when it is unset |
| `Sessions.Session.OpenAppend` | noxfile.py:86 | opening for append creates a missing file as empty and keeps an existing file's text |
| `Sessions.SummaryHandle.Write` | noxfile.py:87 | a write only extends the handle's buffer |
| `Sessions.Session.Flush` | noxfile.py:88 | a flush moves the buffered text to the end of the file and empties the buffer |
| `Sessions.Session.RunInto` | noxfile.py:89-94 | a run with `stdout=summary` is recorded, and its output goes to the end of the file, past the handle's buffer |
| `Sessions.Session.Close` | noxfile.py:86-94 | leaving the `with` block flushes what is still buffered |
| `TestsSession.Route` | noxfile.py:65-70 | routing fails only for `coverage github` when `GITHUB_STEP_SUMMARY` is unset. Otherwise the selector words put back in front of the forwarded arguments give the arguments again. The mode is plain iff the first argument is not `coverage`, and CI iff the first two are `coverage github`. The CI summary path is the variable's value |
| `TestsSession.RouteUnique` | noxfile.py:65-70 | `Route` returns a mode iff that mode fits the arguments, so exactly one mode fits |
| `TestsSession.CoverageEvents` | noxfile.py:72-94 | under coverage: install `coverage[toml]`, then run `coverage run` with the forwarded arguments followed by `-m virtue PACKAGE`, with `JSON_SCHEMA_TEST_SUITE` set to the root's `json` directory and nothing else. Then run `coverage report`, adding `--format=markdown` and writing into the summary file exactly in CI mode, and otherwise to the terminal |
| `TestsSession.TestsEvents` | noxfile.py:61-96 | the body first installs `--group=test` and the installable. It reads the environment iff the arguments ask for CI mode, and runs something iff routing succeeds. A run into a file is the last event, happens only in CI mode, and targets the path the variable names |
| `TestsSession.TestsCommandLines` | noxfile.py:61-96 | the body's exact events for each choice of arguments, every install, argument list and environment written out. All modes first install `--group=test` and the installable. Plain mode runs `virtue`, all positional arguments, `PACKAGE` with `JSON_SCHEMA_TEST_SUITE` set to the root's `json` directory. The coverage modes pass the arguments after `coverage` (or `coverage github`) to `coverage run`. A missing summary variable stops the body after the lookup |
| `TestsSession.FilesAfter` | noxfile.py:83-94 | no file disappears, and every file's old text is kept at its start. Only the CI summary file can change or appear |
| `TestsSession.SummaryReadBeforeCoverage` | noxfile.py:63-81 | in CI mode the variable is read right after the test dependencies are installed, before coverage is installed or anything runs; if it is unset, nothing further happens |
| `TestsSession.SummaryAppended` | noxfile.py:86-94 | in CI mode the summary file keeps its prior text, followed by `### Coverage\n\n` and then the report, and no other file changes |
| `TestsSession.RunUnderCoverage` | noxfile.py:72-94 | installs coverage, runs the tests under it, then sends the report to the terminal, or appends the header and then the report to the summary file |
| `TestsSession.Tests` | noxfile.py:57-96 | the body fails exactly when routing fails, issues exactly `TestsEvents` in order, and changes files exactly as `FilesAfter` says |
| `DocsSession.SphinxFlags` | noxfile.py:206-208 | the flags begin `-n -T -W`, contain `-q` iff the builder is not `spelling`, and have nothing else |
| `DocsSession.OutputArgs` | noxfile.py:209 | non-empty positional arguments are the output arguments; otherwise there is exactly one, the builder's directory inside the temporary directory |
| `DocsSession.DocsArgv` | noxfile.py:210-219 | the command starts `python -m sphinx -b`, and holds six fixed slots plus the flags and the output arguments |
| `DocsSession.DocsArgvLayout` | noxfile.py:206-218 | the Sphinx command names the builder and the docs directory, then the flags, with the output arguments last |
| `DocsSession.Docs` | noxfile.py:199-219 | the body installs the docs requirements, then runs exactly that Sphinx command, and touches no file |
| `RequirementsSession.CompileCommand` | noxfile.py:260-264 | the command is all literal words, at least three of them. It starts with `uv` exactly when the backend is `uv`, and with `pip-compile` otherwise |
| `RequirementsSession.SetupEvents` | noxfile.py:260-264 | the setup is at most one event, present exactly when the backend is not `uv`, and that event installs `pip-tools` |
| `RequirementsSession.RequirementsEvents` | noxfile.py:260-269 | no more than one event per pair plus the setup. Without `uv` the first event installs `pip-tools`; with `uv` the events are just the chain's compile runs |
| `RequirementsSession.Chain` | noxfile.py:266-269 | no more compile runs are issued than there are pairs |
| `RequirementsSession.ChainRuns` | noxfile.py:266-269 | the i-th run is the resolver command, `--upgrade`, `--output-file`, the i-th output and then the i-th input relative to the root, with no extra environment and output on the terminal |
| `RequirementsSession.ChainShape` | noxfile.py:266-269 | the i-th run is the compile of the i-th pair, written out as in `ChainRuns`, and every run but the last succeeded. The chain passes iff every pair was compiled successfully. A failure names the pair not under the root, or the failed command that was the last one issued |
| `RequirementsSession.ChainOnlyRuns` | noxfile.py:266-269 | the compile loop issues nothing but runs |
| `RequirementsSession.ChainStopsAtFailure` | noxfile.py:266-269 | if entry k fails after all earlier entries succeed, then exactly k+1 runs are issued and no later entry is attempted |
| `RequirementsSession.PipToolsOnlyWithoutUv` | noxfile.py:260-264 | the session installs something (pip-tools) iff the backend is not `uv`, and everything after that is a compile run |
| `RequirementsSession.RepositoryChain` | noxfile.py:260-269 | for this repository the session is the setup followed by one run: the resolver command, `--upgrade`, `--output-file` with `docs/requirements.txt` under the root, and last the input `docs/requirements.in` relative to the root |
| `RequirementsSession.CompileAll` | noxfile.py:266-269 | the loop issues exactly the chain's compile runs, one per pair in list order up to the first failure, ends with the chain's outcome, and touches no file |
| `RequirementsSession.Requirements` | noxfile.py:254-269 | the body issues exactly the setup and the chain's runs, ends with the chain's outcome, and touches no file |

Two behaviours of the code worth noting:

- In CI mode a missing `GITHUB_STEP_SUMMARY` is only detected after the test dependencies are
  already installed (line 63 runs before line 68). So the failure is not free of external
  commands. It does come before coverage is installed and before any test command. The model
  follows the code.
- Registration does not detect two sessions with the same name. The default list accepts a
  name twice. Any collision check belongs to nox.

## Left out

- The `nox` library: registering the function with nox (`nox.session(...)(fn)` on line 50),
  expanding `nox.parametrize` into concrete sessions and their display names, choosing
  sessions by name or tag, interpreter versions, and creating virtualenvs. Its source is not
  part of this model.
- The bodies of `audit`, `license_check`, `build`, `secrets`, `style`, `typing`, `docs_style`
  and `bench`. Each installs packages and runs external commands, some inside a temporary
  directory or built from a parameter, with no decision or ordering logic of its own.
- The benchmark glob (line 240), `TemporaryDirectory` and `session.create_tmp`. Their results
  enter as parameters.
- The inert data `NONGPL_LICENSES`, `SUPPORTED` and the values of `INSTALLABLE`.
- Exit status and failure propagation between sessions, which nox handles.
- Tests, RunUnderCoverage: do not model a failing external command. Nox raises on a failing
  command and the session stops, but here every install and run is taken to succeed. In
  particular, a failing `coverage run` (failing tests) stops the source before line 86, so it
  never opens the summary file. The model always goes on to the report.
- OpenAppend: always succeeds. At line 86, `open("a")` raises OSError in two cases: the path
  lies in a missing or unwritable directory, or it names a directory. An empty
  `GITHUB_STEP_SUMMARY` gives `Path(".")`, which is a directory. The session then fails after
  `coverage run`, without writing the header. The model has no file-system errors, so in that
  case it returns `Pass` and records the append.
- Docs: does not model a failing install or Sphinx run, for the same reason.
- Requirements: a failing compile run is modelled (through the `succeeds` parameter), because
  stopping the chain there is what the order protects. A failing `pip-tools` install is not
  modelled.
- Paths.Join: takes a single component. `p / "a/b"` splitting into two components is not
  modelled, because the file only ever joins single names.
- Paths.Suffix: follows pathlib's rule for CPython 3.9 to 3.13: a dot that starts or ends the
  name does not begin a suffix. Later versions' changes to that rule are not modelled.
- The summary path from `GITHUB_STEP_SUMMARY` is used as the file's key exactly as written.
  `Path(...)` normalisation and other processes writing to the same file are not modelled.
- What the coverage, virtue, Sphinx and resolver tools do with their arguments, and the
  compiled requirements files they write.
