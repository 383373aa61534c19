/**
 internal/provider/data_source_local_exec.go: the `terrapwner_local_exec`
 data source runs `command[0]` with `command[1:]` through `Execute` and
 records success, output, exit code and failure reason; `fail_on_error`
 turns a failure into an error diagnostic instead of saved state.
 */
module LocalExec {
  import opened Framework
  import opened Strings
  import opened Exec

  /** `defaultCommandTimeout`, in seconds. */
  const DefaultCommandTimeout := 30

  /** `TerrapwnerLocalExecDataSourceModel` (without `duration_ms`). */
  datatype Model = Model(
    command: seq<string>,
    timeout: Option<int>,
    expectSuccess: Option<bool>,
    failOnError: Option<bool>,
    success: Option<bool>,
    stdout: Option<string>,
    stderr: Option<string>,
    exitCode: Option<int>,
    failReason: Option<string>)

  /** Lines 126-134: null inputs take their defaults. */
  function WithDefaults(config: Model): (data: Model)
    ensures data.timeout == Some(config.timeout.GetOr(DefaultCommandTimeout))
    ensures data.expectSuccess == Some(config.expectSuccess.GetOr(true))
    ensures data.failOnError == Some(config.failOnError.GetOr(false))
    ensures data == config.(timeout := data.timeout, expectSuccess := data.expectSuccess, failOnError := data.failOnError)
  {
    config.(timeout := Some(config.timeout.GetOr(DefaultCommandTimeout)),
            expectSuccess := Some(config.expectSuccess.GetOr(true)),
            failOnError := Some(config.failOnError.GetOr(false)))
  }

  /** The process a non-empty command list asks for: executable first, then its arguments. */
  function CommandInvocation(config: Model): (inv: Invocation)
    requires |config.command| > 0
    ensures [inv.command] + inv.args == config.command
    ensures inv.timeoutSeconds == config.timeout.GetOr(DefaultCommandTimeout)
  {
    Invocation(config.command[0], config.command[1..], config.timeout.GetOr(DefaultCommandTimeout))
  }

  const EmptyCommand := Diagnostic(Error, "Invalid command", "Command list cannot be empty")

  /** Lines 161-174: `Execute` returned an error. */
  function OnExecError(data: Model, error: string): (resp: Response<Model>)
    requires data.failOnError.Some?
    ensures var reason := "Failed to execute command: " + error;
      && (resp.state.Some? <==> !data.failOnError.value)
      && (resp.state.Some? ==>
            && resp.diagnostics == []
            && resp.state.value == data.(success := Some(false), exitCode := Some(-1), failReason := Some(reason)))
      && (resp.state.None? ==> resp.diagnostics == [Diagnostic(Error, "Command execution failed", reason)])
  {
    var data := data.(success := Some(false), failReason := Some("Failed to execute command: " + error), exitCode := Some(-1));
    if data.failOnError.value then Empty<Model>().AddError("Command execution failed", data.failReason.value)
    else Empty<Model>().SetState(data)
  }

  /** Lines 177-195: the command ran to completion with some exit code. */
  function OnCompleted(data: Model, r: ExecResult): (resp: Response<Model>)
    requires data.failOnError.Some?
    ensures resp.state.None? <==> r.exitCode != 0 && data.failOnError.value
    ensures resp.state.Some? ==>
      && resp.diagnostics == []
      && resp.state.value == data.(success := Some(r.exitCode == 0), stdout := Some(r.stdout), stderr := Some(r.stderr),
                                   exitCode := Some(r.exitCode), failReason := Some(""))
    ensures resp.state.None? ==>
      resp.diagnostics == [Diagnostic(Error, "Command failed", "Command exited with code " + FormatInt(r.exitCode) + ": " + r.stderr)]
  {
    var data := data.(success := Some(r.exitCode == 0), stdout := Some(r.stdout), stderr := Some(r.stderr),
                      exitCode := Some(r.exitCode), failReason := Some(""));
    if !data.success.value && data.failOnError.value then
      Empty<Model>().AddError("Command failed", "Command exited with code " + FormatInt(r.exitCode) + ": " + r.stderr)
    else Empty<Model>().SetState(data)
  }

  /** What `Read` produces, as a function of the configuration and of the process. */
  function ReadSpec(config: Model, world: Invocation -> ProcessOutcome): (resp: Response<Model>)
    // state is saved exactly when no error diagnostic was added, and then with no diagnostic at all
    ensures resp.state.Some? <==> !HasError(resp.diagnostics)
    ensures resp.state.Some? ==> resp.diagnostics == []
    // lines 146-152
    ensures |config.command| == 0 ==> resp == Response([EmptyCommand], None)
    // lines 161-175
    ensures |config.command| > 0 && Classify(world(CommandInvocation(config))).Failed? ==>
      var reason := "Failed to execute command: " + Classify(world(CommandInvocation(config))).error;
      && (resp.state.Some? <==> !config.failOnError.GetOr(false))
      && (resp.state.Some? ==>
            resp.state.value == WithDefaults(config).(success := Some(false), exitCode := Some(-1), failReason := Some(reason)))
      && (resp.state.None? ==> resp.diagnostics == [Diagnostic(Error, "Command execution failed", reason)])
    // lines 177-195
    ensures |config.command| > 0 && Classify(world(CommandInvocation(config))).Completed? ==>
      var r := Classify(world(CommandInvocation(config))).result;
      && (resp.state.None? <==> r.exitCode != 0 && config.failOnError.GetOr(false))
      && (resp.state.Some? ==>
            resp.state.value == WithDefaults(config).(success := Some(r.exitCode == 0), stdout := Some(r.stdout),
              stderr := Some(r.stderr), exitCode := Some(r.exitCode), failReason := Some("")))
      && (resp.state.None? ==>
            resp.diagnostics == [Diagnostic(Error, "Command failed",
              "Command exited with code " + FormatInt(r.exitCode) + ": " + r.stderr)])
  {
    var data := WithDefaults(config);
    if |data.command| == 0 then Empty<Model>().AddError(EmptyCommand.summary, EmptyCommand.detail)
    else
      assert CommandInvocation(data) == CommandInvocation(config);
      match Classify(world(CommandInvocation(config)))
      case Failed(e) => OnExecError(data, e)
      case Completed(r) => OnCompleted(data, r)
  }

  /** `Read`: defaults, validation, one `Execute`, then the result mapping. */
  method Read(config: Model, world: Invocation -> ProcessOutcome) returns (resp: Response<Model>)
    ensures resp == ReadSpec(config, world)
  {
    resp := Empty();
    var data := config;

    if data.timeout.None? {
      data := data.(timeout := Some(DefaultCommandTimeout));
    }
    if data.expectSuccess.None? {
      data := data.(expectSuccess := Some(true));
    }
    if data.failOnError.None? {
      data := data.(failOnError := Some(false));
    }

    assert data == WithDefaults(config);
    var command := data.command;
    if |command| == 0 {
      resp := resp.AddError("Invalid command", "Command list cannot be empty");
      return;
    }

    var result, err := Execute(world, command[0], command[1..], data.timeout.value);
    assert Invocation(command[0], command[1..], data.timeout.value) == CommandInvocation(data);
    if err.Some? {
      assert ReadSpec(config, world) == OnExecError(data, err.value);
      data := data.(success := Some(false));
      data := data.(failReason := Some("Failed to execute command: " + err.value));
      data := data.(exitCode := Some(-1));
      if data.failOnError.value {
        resp := resp.AddError("Command execution failed", data.failReason.value);
        return;
      }
      resp := resp.SetState(data);
      return;
    }

    var r := result.value;
    assert ReadSpec(config, world) == OnCompleted(data, r);
    data := data.(success := Some(r.exitCode == 0));
    data := data.(stdout := Some(r.stdout));
    data := data.(stderr := Some(r.stderr));
    data := data.(exitCode := Some(r.exitCode));
    data := data.(failReason := Some(""));

    if !data.success.value && data.failOnError.value {
      resp := resp.AddError("Command failed", "Command exited with code " + FormatInt(r.exitCode) + ": " + r.stderr);
      return;
    }

    resp := resp.SetState(data);
  }

  /** Lines 146-152: an empty command list never reaches `Execute`. */
  lemma EmptyCommandRunsNothing(config: Model, world1: Invocation -> ProcessOutcome, world2: Invocation -> ProcessOutcome)
    requires |config.command| == 0
    ensures ReadSpec(config, world1) == ReadSpec(config, world2)
  {
  }

  /** `expect_success` is defaulted and saved, but nothing else depends on it. */
  lemma ExpectSuccessIgnored(config: Model, world: Invocation -> ProcessOutcome, flag: Option<bool>)
    ensures var a := ReadSpec(config, world);
            var b := ReadSpec(config.(expectSuccess := flag), world);
            && a.diagnostics == b.diagnostics
            && a.state.Some? == b.state.Some?
            && (a.state.Some? ==> a.state.value == b.state.value.(expectSuccess := a.state.value.expectSuccess))
  {
  }
}
