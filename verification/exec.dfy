/**
 internal/utils/exec.go: `Execute` runs a command under a timeout, captures
 its standard output and standard error in two buffers, and classifies what
 happened as exactly one of a result or an error.

 The process itself is outside the model. What the operating system does
 when `command` is started with `args` under a deadline is an input, a
 `ProcessOutcome`: the start failed, or the process ran, wrote an
 interleaving of chunks to its two streams, was waited for with some outcome,
 and the context had or had not expired by then.
 */
module Exec {
  import opened Framework

  /** `ExecResult`. */
  datatype ExecResult = ExecResult(stdout: string, stderr: string, exitCode: int)

  /** The two errors `ctx.Err()` can return once the context is done. */
  datatype ContextError = Canceled | DeadlineExceeded {
    function Text(): string {
      match this
      case Canceled => "context canceled"
      case DeadlineExceeded => "context deadline exceeded"
    }
  }

  datatype Stream = Stdout | Stderr

  /** One write of the child process to one of its output streams. */
  datatype Chunk = Chunk(stream: Stream, data: string)

  /** What `cmd.Wait()` returned. */
  datatype WaitOutcome =
    | Exited                    // nil: the process exited with status 0
    | ExitError(code: int)      // an *exec.ExitError with that ExitCode()
    | WaitFailed(reason: string) // any other error (e.g. copying output failed)

  datatype ProcessOutcome =
    | StartFailed(reason: string)
    | Ran(writes: seq<Chunk>, wait: WaitOutcome, expired: Option<ContextError>)

  /** What a caller asks to run: executable, argument vector, timeout in seconds. */
  datatype Invocation = Invocation(command: string, args: seq<string>, timeoutSeconds: int)

  /** Exactly one of Go's `(*ExecResult, error)` pair is non-nil. */
  datatype ExecOutcome = Completed(result: ExecResult) | Failed(error: string)

  /** What a buffer attached to `stream` holds after `writes`. */
  function Captured(writes: seq<Chunk>, stream: Stream): string {
    if |writes| == 0 then ""
    else
      var last := writes[|writes| - 1];
      Captured(writes[..|writes| - 1], stream) + (if last.stream == stream then last.data else "")
  }

  function TotalLength(writes: seq<Chunk>): nat {
    if |writes| == 0 then 0 else TotalLength(writes[..|writes| - 1]) + |writes[|writes| - 1].data|
  }

  /** Every byte written ends up in exactly one of the two buffers. */
  lemma {:induction false} CapturedPartitions(writes: seq<Chunk>)
    ensures |Captured(writes, Stdout)| + |Captured(writes, Stderr)| == TotalLength(writes)
  {
    if |writes| > 0 {
      CapturedPartitions(writes[..|writes| - 1]);
    }
  }

  /** A write to one stream leaves the other stream's buffer as it was. */
  lemma CapturedUnmixed(writes: seq<Chunk>, data: string)
    ensures Captured(writes + [Chunk(Stderr, data)], Stdout) == Captured(writes, Stdout)
    ensures Captured(writes + [Chunk(Stdout, data)], Stderr) == Captured(writes, Stderr)
  {
    assert (writes + [Chunk(Stderr, data)])[..|writes|] == writes;
    assert (writes + [Chunk(Stdout, data)])[..|writes|] == writes;
  }

  /** The classification `Execute` performs, as a function of the outcome. */
  function Classify(o: ProcessOutcome): (r: ExecOutcome)
    // exec.go:37-40
    ensures o.StartFailed? ==> r == Failed("failed to start command: " + o.reason)
    // exec.go:45-48: an expired context wins whatever Wait returned
    ensures o.Ran? && o.expired.Some? ==> r == Failed(o.expired.value.Text())
    // exec.go:57-64
    ensures r.Completed? <==> o.Ran? && o.expired.None? && !o.wait.WaitFailed?
    ensures o.Ran? && o.expired.None? && o.wait.WaitFailed? ==> r == Failed("command failed: " + o.wait.reason)
    ensures r.Completed? ==> r.result.exitCode == (if o.wait.ExitError? then o.wait.code else 0)
    // exec.go:32-34, 51-54: the two streams are captured separately
    ensures r.Completed? ==>
      r.result.stdout == Captured(o.writes, Stdout) && r.result.stderr == Captured(o.writes, Stderr)
  {
    match o
    case StartFailed(reason) => Failed("failed to start command: " + reason)
    case Ran(writes, wait, expired) =>
      if expired.Some? then Failed(expired.value.Text())
      else
        var result := ExecResult(Captured(writes, Stdout), Captured(writes, Stderr), 0);
        match wait
        case Exited => Completed(result)
        case ExitError(code) => Completed(result.(exitCode := code))
        case WaitFailed(reason) => Failed("command failed: " + reason)
  }

  /** `bytes.Buffer`, as far as `cmd.Stdout` / `cmd.Stderr` use it. */
  class Buffer {
    var contents: string

    constructor ()
      ensures contents == ""
    {
      contents := "";
    }

    method Write(p: string)
      modifies this
      ensures contents == old(contents) + p
    {
      contents := contents + p;
    }
  }

  /**
   The running child: each write goes to the buffer of its own stream. The two
   buffers are distinct objects, so nothing written to one shows in the other.
   */
  method Run(writes: seq<Chunk>, stdout: Buffer, stderr: Buffer)
    requires stdout != stderr
    modifies stdout, stderr
    ensures stdout.contents == old(stdout.contents) + Captured(writes, Stdout)
    ensures stderr.contents == old(stderr.contents) + Captured(writes, Stderr)
  {
    for i := 0 to |writes|
      invariant stdout.contents == old(stdout.contents) + Captured(writes[..i], Stdout)
      invariant stderr.contents == old(stderr.contents) + Captured(writes[..i], Stderr)
    {
      assert writes[..i + 1][..i] == writes[..i];
      var chunk := writes[i];
      if chunk.stream == Stdout {
        stdout.Write(chunk.data);
      } else {
        stderr.Write(chunk.data);
      }
    }
    assert writes[..|writes|] == writes;
  }

  /**
   `Execute(ctx, command, args, timeout)`. `world` says how the process behaves
   when started with that invocation.
   */
  method Execute(world: Invocation -> ProcessOutcome, command: string, args: seq<string>, timeoutSeconds: int)
    returns (result: Option<ExecResult>, err: Option<string>)
    ensures result.Some? != err.Some?
    ensures match Classify(world(Invocation(command, args, timeoutSeconds)))
            case Completed(r) => result == Some(r)
            case Failed(e) => err == Some(e)
  {
    var process := world(Invocation(command, args, timeoutSeconds));
    var stdout := new Buffer();
    var stderr := new Buffer();

    if process.StartFailed? {
      return None, Some("failed to start command: " + process.reason);
    }

    Run(process.writes, stdout, stderr);

    if process.expired.Some? {
      return None, Some(process.expired.value.Text());
    }

    var r := ExecResult(stdout.contents, stderr.contents, 0);

    if !process.wait.Exited? {
      if process.wait.ExitError? {
        r := r.(exitCode := process.wait.code);
        assert Classify(process) == Completed(r);
        return Some(r), None;
      }
      return None, Some("command failed: " + process.wait.reason);
    }

    assert Classify(process) == Completed(r);
    return Some(r), None;
  }
}
