/**
 * What a session body in the noxfile can observe and do, recorded rather than executed.
 * The `Session` object stands for nox's session together with the process around it:
 * its positional arguments and virtualenv backend, the process environment, and the text of
 * the files a body writes to. Installing packages, running external tools and reading an
 * environment variable append events to a trace in the order the body performs them.
 */
module Sessions {
  import opened Common
  import opened Paths

  /** One command-line argument: a literal string or a path (nox turns paths into strings). */
  datatype Arg = Lit(text: string) | File(path: Path)

  /** Literal arguments, in order. */
  function Lits(xs: seq<string>): (args: seq<Arg>)
    ensures |args| == |xs| && forall i :: 0 <= i < |xs| ==> args[i] == Lit(xs[i])
  {
    seq(|xs|, i requires 0 <= i < |xs| => Lit(xs[i]))
  }

  /** Where an external command's standard output goes. */
  datatype Sink = Terminal | IntoFile(path: string)

  /** What a session body does that is visible outside the interpreter. */
  datatype Event =
    | Install(packages: seq<Arg>)
    | Run(argv: seq<Arg>, env: map<string, Arg>, stdout: Sink)
    | ReadEnv(name: string)

  /** Why a session body stopped before its end (an exception in the Python code). */
  datatype Error =
    | MissingVariable(name: string)
    | NotRelative(path: Path, root: Path)
    | CommandFailed(argv: seq<Arg>)

  datatype Outcome = Pass | Fail(error: Error)

  datatype Result<+T> = Ok(value: T) | Err(error: Error)

  /** The text a file already holds, or "" for a file that opening for append would create. */
  function Existing(files: map<string, string>, path: string): string
  {
    if path in files then files[path] else ""
  }

  class Session {
    const posargs: seq<string>
    const venvBackend: string
    const environ: map<string, string>
    var trace: seq<Event>
    var files: map<string, string>

    constructor (posargs: seq<string>, venvBackend: string, environ: map<string, string>, files: map<string, string>)
      ensures this.posargs == posargs && this.venvBackend == venvBackend && this.environ == environ
      ensures this.files == files && trace == []
    {
      this.posargs := posargs;
      this.venvBackend := venvBackend;
      this.environ := environ;
      this.files := files;
      trace := [];
    }

    /** `session.install(*packages)`. */
    method Install(packages: seq<Arg>)
      modifies this
      ensures trace == old(trace) + [Event.Install(packages)] && files == old(files)
    {
      trace := trace + [Event.Install(packages)];
    }

    /** `session.run(*argv, env=env)` with output left on the terminal. */
    method Run(argv: seq<Arg>, env: map<string, Arg>)
      modifies this
      ensures trace == old(trace) + [Event.Run(argv, env, Terminal)] && files == old(files)
    {
      trace := trace + [Event.Run(argv, env, Terminal)];
    }

    /**
     * Looking `name` up in `os.environ`, recorded so that its place among the commands is visible.
     * The source subscripts `os.environ[name]`, which raises KeyError for an unset variable; the
     * caller turns None into that failure (see `TestsSession.Tests`).
     */
    method GetEnv(name: string) returns (v: Option<string>)
      modifies this
      ensures trace == old(trace) + [ReadEnv(name)] && files == old(files)
      ensures v == if name in environ then Some(environ[name]) else None
    {
      trace := trace + [ReadEnv(name)];
      v := if name in environ then Some(environ[name]) else None;
    }

    /**
     * `open(path, "a")`: creates the file when it is missing and never truncates it. Opening
     * is taken to succeed: file-system errors are not modelled.
     */
    method OpenAppend(path: string) returns (h: SummaryHandle)
      modifies this
      ensures fresh(h) && h.path == path && h.buffer == ""
      ensures trace == old(trace) && files == old(files)[path := Existing(old(files), path)]
    {
      h := new SummaryHandle(path);
      files := files[path := Existing(files, path)];
    }

    /** `h.flush()`: what the handle has buffered reaches the end of the file. */
    method Flush(h: SummaryHandle)
      modifies this, h
      ensures h.buffer == "" && trace == old(trace)
      ensures files == old(files)[h.path := Existing(old(files), h.path) + old(h.buffer)]
    {
      files := files[h.path := Existing(files, h.path) + h.buffer];
      h.buffer := "";
    }

    /**
     * `session.run(*argv, env=env, stdout=h)`: the child process writes `output` straight to the
     * end of the file, past whatever the handle still holds in its buffer.
     */
    method RunInto(argv: seq<Arg>, env: map<string, Arg>, h: SummaryHandle, output: string)
      modifies this
      ensures trace == old(trace) + [Event.Run(argv, env, IntoFile(h.path))]
      ensures files == old(files)[h.path := Existing(old(files), h.path) + output]
    {
      trace := trace + [Event.Run(argv, env, IntoFile(h.path))];
      files := files[h.path := Existing(files, h.path) + output];
    }

    /** Leaving the `with` block: the handle is flushed and closed. */
    method Close(h: SummaryHandle)
      modifies this, h
      ensures h.buffer == "" && trace == old(trace)
      ensures files == old(files)[h.path := Existing(old(files), h.path) + old(h.buffer)]
    {
      Flush(h);
    }
  }

  /**
   * A file opened for append. A short write, such as the summary header, only fills the
   * in-process buffer (a write larger than that buffer would go through to the file).
   */
  class SummaryHandle {
    const path: string
    var buffer: string

    constructor (path: string)
      ensures this.path == path && buffer == ""
    {
      this.path := path;
      buffer := "";
    }

    /** `h.write(text)` for a text shorter than the buffer. */
    method Write(text: string)
      modifies this
      ensures buffer == old(buffer) + text
    {
      buffer := buffer + text;
    }
  }
}
