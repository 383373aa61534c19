/**
 internal/provider/data_source_remote_exec.go: the `terrapwner_remote_exec`
 data source downloads a script, runs it as `interpreter scriptPath args...`
 and records its output. A download or execution failure is an error
 diagnostic when `fail_on_error` is set, and otherwise a warning plus saved
 fallback values. A non-zero exit code is never an error: the schema
 describes `expect_success` as turning one into an error (line 75), but
 `Read` never reads that attribute, and the model follows `Read`.

 `downloadScript` (fetching to a temporary file and making it executable) is
 an input: for each URL, the path it produced or the text of its error.
 */
module RemoteExec {
  import opened Framework
  import opened Exec

  /** The timeout `executeScript` passes to `Execute`, in seconds. */
  const ScriptTimeout := 30

  /** `TerrapwnerRemoteExecDataSourceModel`. */
  datatype Model = Model(
    url: string,
    interpreter: string,
    args: Option<seq<string>>,
    expectSuccess: Option<bool>,
    failOnError: Option<bool>,
    success: Option<bool>,
    stdout: Option<string>,
    stderr: Option<string>,
    exitCode: Option<int>)

  /** What `downloadScript(ctx, url)` returned. */
  datatype Download = Downloaded(path: string) | DownloadFailed(reason: string)

  /** Line 121: `append([]string{scriptPath}, args...)`. */
  function ScriptArgv(scriptPath: string, args: seq<string>): (argv: seq<string>)
    ensures |argv| == |args| + 1
    ensures argv[0] == scriptPath && argv[1..] == args
  {
    [scriptPath] + args
  }

  /** What `executeScript` returns, as a function of the process. */
  function ScriptOutcome(world: Invocation -> ProcessOutcome, scriptPath: string, interpreter: string, args: seq<string>)
    : (r: ExecOutcome)
    ensures var o := Classify(world(Invocation(interpreter, ScriptArgv(scriptPath, args), ScriptTimeout)));
      && (o.Completed? ==> r == o)
      && (o.Failed? ==> r == Failed("failed to execute script: " + o.error))
  {
    match Classify(world(Invocation(interpreter, ScriptArgv(scriptPath, args), ScriptTimeout)))
    case Completed(result) => Completed(result)
    case Failed(e) => Failed("failed to execute script: " + e)
  }

  /** `executeScript`: run the interpreter on the script, wrapping any error. */
  method ExecuteScript(world: Invocation -> ProcessOutcome, scriptPath: string, interpreter: string, args: seq<string>)
    returns (result: Option<ExecResult>, err: Option<string>)
    ensures result.Some? != err.Some?
    ensures match ScriptOutcome(world, scriptPath, interpreter, args)
            case Completed(r) => result == Some(r)
            case Failed(e) => err == Some(e)
  {
    result, err := Execute(world, interpreter, ScriptArgv(scriptPath, args), ScriptTimeout);
    if err.Some? {
      return None, Some("failed to execute script: " + err.value);
    }
    return result, None;
  }

  /** Lines 168-172 and 193-197: the values saved when a failure is tolerated. */
  function Fallback(data: Model, reason: string): (fallback: Model)
    ensures fallback.success == Some(false) && fallback.stdout == Some("")
    ensures fallback.stderr == Some(reason) && fallback.exitCode == Some(-1)
    ensures fallback == data.(success := fallback.success, stdout := fallback.stdout,
                              stderr := fallback.stderr, exitCode := fallback.exitCode)
  {
    data.(success := Some(false), stdout := Some(""), stderr := Some(reason), exitCode := Some(-1))
  }

  /**
   Lines 155-174 and 180-199: a failed step is an error when `fail_on_error`
   is set, and otherwise a warning with the fallback state saved.
   */
  function Tolerate(data: Model, summary: string, reason: string): (resp: Response<Model>)
    ensures data.failOnError == Some(true) ==>
      resp == Response([Diagnostic(Error, summary, reason)], None)
    ensures data.failOnError != Some(true) ==>
      resp == Response([Diagnostic(Warning, summary, reason)], Some(Fallback(data, reason)))
  {
    if data.failOnError.Some? && data.failOnError.value then Empty<Model>().AddError(summary, reason)
    else Empty<Model>().AddWarning(summary, reason).SetState(Fallback(data, reason))
  }

  /** What `Read` produces, as a function of the configuration, the download and the process. */
  function ReadSpec(config: Model, fetch: string -> Download, world: Invocation -> ProcessOutcome)
    : (resp: Response<Model>)
    ensures resp.state.Some? <==> !HasError(resp.diagnostics)
    ensures resp.state.Some? ==> resp.state.value.failOnError == Some(config.failOnError.GetOr(false))
    // lines 154-175
    ensures fetch(config.url).DownloadFailed? ==>
      var reason := fetch(config.url).reason;
      if config.failOnError.GetOr(false) then resp == Response([Diagnostic(Error, "Failed to download script", reason)], None)
      else
        && resp.diagnostics == [Diagnostic(Warning, "Failed to download script", reason)]
        && resp.state == Some(Fallback(config.(failOnError := Some(false)), reason))
    // lines 179-200: the script runs as `interpreter scriptPath args...`
    ensures fetch(config.url).Downloaded? ==>
      var o := ScriptOutcome(world, fetch(config.url).path, config.interpreter, config.args.GetOr([]));
      && (o.Failed? ==>
            if config.failOnError.GetOr(false) then resp == Response([Diagnostic(Error, "Failed to execute script", o.error)], None)
            else
              && resp.diagnostics == [Diagnostic(Warning, "Failed to execute script", o.error)]
              && resp.state == Some(Fallback(config.(failOnError := Some(false)), o.error)))
      // lines 203-209: whatever the exit code, no diagnostic and the result is copied
      && (o.Completed? ==>
            && resp.diagnostics == []
            && resp.state == Some(config.(failOnError := Some(config.failOnError.GetOr(false)),
                 success := Some(o.result.exitCode == 0), stdout := Some(o.result.stdout),
                 stderr := Some(o.result.stderr), exitCode := Some(o.result.exitCode))))
  {
    var data := config.(failOnError := Some(config.failOnError.GetOr(false)));
    var args := config.args.GetOr([]);
    match fetch(data.url)
    case DownloadFailed(reason) => Tolerate(data, "Failed to download script", reason)
    case Downloaded(path) =>
      match ScriptOutcome(world, path, data.interpreter, args)
      case Failed(e) => Tolerate(data, "Failed to execute script", e)
      case Completed(r) =>
        Empty<Model>().SetState(data.(success := Some(r.exitCode == 0), stdout := Some(r.stdout),
                                      stderr := Some(r.stderr), exitCode := Some(r.exitCode)))
  }

  /** `Read`: default, download, execute, then the three-way result mapping. */
  method Read(config: Model, fetch: string -> Download, world: Invocation -> ProcessOutcome)
    returns (resp: Response<Model>)
    ensures resp == ReadSpec(config, fetch, world)
  {
    resp := Empty();
    var data := config;

    if data.failOnError.None? {
      data := data.(failOnError := Some(false));
    }

    var args: seq<string> := [];
    if data.args.Some? {
      args := data.args.value;
    }

    var download := fetch(data.url);
    if download.DownloadFailed? {
      if data.failOnError.Some? && data.failOnError.value {
        resp := resp.AddError("Failed to download script", download.reason);
        return;
      }
      resp := resp.AddWarning("Failed to download script", download.reason);
      data := data.(success := Some(false));
      data := data.(stdout := Some(""));
      data := data.(stderr := Some(download.reason));
      data := data.(exitCode := Some(-1));
      resp := resp.SetState(data);
      return;
    }

    var result, err := ExecuteScript(world, download.path, data.interpreter, args);
    if err.Some? {
      if data.failOnError.Some? && data.failOnError.value {
        resp := resp.AddError("Failed to execute script", err.value);
        return;
      }
      resp := resp.AddWarning("Failed to execute script", err.value);
      data := data.(success := Some(false));
      data := data.(stdout := Some(""));
      data := data.(stderr := Some(err.value));
      data := data.(exitCode := Some(-1));
      resp := resp.SetState(data);
      return;
    }

    var r := result.value;
    data := data.(success := Some(r.exitCode == 0));
    data := data.(stdout := Some(r.stdout));
    data := data.(stderr := Some(r.stderr));
    data := data.(exitCode := Some(r.exitCode));

    resp := resp.SetState(data);
  }

  /** Lines 203-209: a script that ran is never reported as an error, even with `fail_on_error`. */
  lemma CompletionIsNeverAnError(config: Model, fetch: string -> Download, world: Invocation -> ProcessOutcome)
    requires fetch(config.url).Downloaded?
    requires ScriptOutcome(world, fetch(config.url).path, config.interpreter, config.args.GetOr([])).Completed?
    ensures !HasError(ReadSpec(config, fetch, world).diagnostics)
    ensures ReadSpec(config, fetch, world).state.Some?
  {
  }
}
