# terrapwner data sources, modelled in Dafny

The Terraform provider `terrapwner` offers seven data sources. Each one wraps
a `Read` callback around some I/O:

- `local_exec` runs a command.
- `remote_exec` downloads and runs a script.
- `exfil` POSTs content to an endpoint.
- `network_probe` runs a DNS, TCP, UDP or ICMP probe.
- `env_dump` dumps the environment.
- `identity` reports the AWS caller identity.
- `tfstate` summarises `terraform show -json`.

Three of them (`local_exec`, `remote_exec` and `tfstate`) start processes
through one helper, `utils.Execute`. `exfil` uses only `utils.GetUserAgent`
from that package. `network_probe`, `env_dump` and `identity` do not use it.
This project models the decision logic under the I/O. Defaults, validation order, the mapping of
every outcome to state fields and diagnostics, the `fail_on_error` and
`expect_success` rules, the parsing of environment entries and ARNs, and the
set building of the state summary are all modelled. Each is proved against
the behaviour the source promises. In `remote_exec` the schema describes
`expect_success` as turning a non-zero exit into an error
(`data_source_remote_exec.go:75`), but `Read` never reads that attribute.
The model follows the code, and `RemoteExec.CompletionIsNeverAnError` states
the result.

Layout, one module per source file:

| file | module | models |
|---|---|---|
| framework.dfy | Framework | `Option`, diagnostics, and the response a `Read` fills in (diagnostics plus an optional saved state) |
| strings.dfy | Strings | `strings.Cut`, `Split`, `Join`, and `%d` formatting of integers |
| exec.dfy | Exec | `internal/utils/exec.go` |
| local_exec.dfy | LocalExec | `data_source_local_exec.go` |
| remote_exec.dfy | RemoteExec | `data_source_remote_exec.go` |
| exfil.dfy | Exfil | `data_source_exfil.go` |
| network_probe.dfy | NetworkProbe | `data_source_network_probe.go` |
| env_dump.dfy | EnvDump | `data_source_env_dump.go` |
| identity.dfy | Identity | `data_source_identity.go` |
| tfstate.dfy | Tfstate | `data_source_tfstate.go` |

Each `Read` is a `method` that updates a local copy of the data-source model
field by field and returns early, as the Go code does. Each is tied by its
`ensures` to a `ReadSpec` function, or to a direct statement of what it
saves. The promises of the source sit in those functions' contracts and in
lemmas.

`tfstate` is the exception. Its lists come from Go map iteration, so its
`Read` is specified by the elements of each list, not their order.

All I/O is a parameter:

| I/O | model |
|---|---|
| a started process | `world: Invocation -> ProcessOutcome` (start error, the chunks written to each stream, the wait result, an expired context) |
| the script download | `fetch: string -> Download` |
| the HTTP exchange | `send: Request -> HttpOutcome` |
| name resolution | `lookup` |
| dialling | `dial` |
| the environment | `environ` (a list) or `getenv` |
| the AWS SDK | `sts` and `parseArn` |
| JSON decoding | `decode` |

`utils.Execute` keeps its imperative form. Two `Buffer` objects (the
`bytes.Buffer`s) are filled in place by `Run`. Its `ensures` ties the result
to `Classify`, which carries the source's promises.

## Model

| member | source | states |
|---|---|---|
| Strings.IndexByte | internal/provider/data_source_env_dump.go:83 | the index of the first occurrence of a character, -1 exactly when it is absent, with no earlier occurrence |
| Strings.Cut | internal/provider/data_source_env_dump.go:83 | `found` holds exactly when the separator occurs; then `s == before + sep + after` and `before` has no separator; otherwise `before == s`, `after == ""` |
| Strings.CutUnique | internal/provider/data_source_env_dump.go:83 | cutting `a + sep + b` with no separator in `a` gives exactly `(a, b)` |
| Strings.Split | internal/provider/data_source_identity.go:187 | at least one piece, no piece holds the separator, and joining the pieces gives the input back |
| Strings.Join | internal/provider/data_source_identity.go:192 | the first piece leads the result, followed by the separator when there is a second piece; `Split` undoes it (`SplitJoin`) and `Split`'s pieces join back to the input |
| Strings.JoinCount | internal/provider/data_source_identity.go:192 | joining n separator-free pieces puts exactly n - 1 separators in the result |
| Strings.SplitJoin | internal/provider/data_source_identity.go:187-192 | splitting what was joined from separator-free pieces gives the pieces back |
| Strings.SplitCount | internal/provider/data_source_identity.go:208-209 | the number of pieces is the number of separators plus one |
| Strings.SplitHead | internal/provider/data_source_identity.go:187-192 | the first piece is what precedes the first separator; there are two or more pieces exactly when the separator occurs; the other pieces joined are what follows it |
| Strings.DigitChar | internal/provider/data_source_local_exec.go:189 | a decimal digit character with the given value |
| Strings.FormatNat | internal/provider/data_source_local_exec.go:189 | `%d` of a natural number is a non-empty string of digits, whose first digit is "0" only for the one-digit text of 0 |
| Strings.ThreeDigits | internal/provider/data_source_exfil.go:180 | `%d` has exactly three digits for 100-999, and the first is the hundreds digit |
| Strings.FormatInt | internal/provider/data_source_exfil.go:180 | `%d` of an integer is non-empty, starts with "-" exactly for negatives, and is digits otherwise, never with a leading zero |
| Strings.ParseFormatNat | internal/provider/data_source_local_exec.go:189 | reading back the decimal text of a natural number gives the number |
| Strings.ParseFormatInt | internal/provider/data_source_exfil.go:180 | reading back the decimal text of an integer gives the integer, so distinct codes print differently |
| Exec.CapturedPartitions | internal/utils/exec.go:32-34 | together the two captured streams hold every written byte |
| Exec.CapturedUnmixed | internal/utils/exec.go:32-34 | a write to one stream leaves the other stream's capture unchanged |
| Exec.Classify | internal/utils/exec.go:37-66 | a start failure is "failed to start command: …"; an expired context is its own error whatever Wait returned; a result exists exactly when the process ran, the context is live and Wait did not fail otherwise; another Wait error is "command failed: …"; the exit code is the `ExitError`'s, else 0; stdout and stderr are the two streams' captures |
| Exec.Buffer.constructor | internal/utils/exec.go:32 | a new buffer is empty |
| Exec.Buffer.Write | internal/utils/exec.go:33-34 | a write appends to the buffer's contents |
| Exec.Run | internal/utils/exec.go:32-34 | each buffer ends with exactly its stream's bytes appended, in order |
| Exec.Execute | internal/utils/exec.go:23-67 | exactly one of result and error is present, and it is `Classify`'s outcome for the invoked process |
| LocalExec.WithDefaults | internal/provider/data_source_local_exec.go:126-134 | null timeout, `expect_success` and `fail_on_error` become 30, true and false; nothing else changes |
| LocalExec.CommandInvocation | internal/provider/data_source_local_exec.go:155-160 | executable followed by arguments is the command list; the timeout is the configured or default one |
| LocalExec.OnExecError | internal/provider/data_source_local_exec.go:161-175 | `success` false, `exit_code` -1, `fail_reason` "Failed to execute command: …"; saved exactly when `fail_on_error` is off, otherwise one "Command execution failed" error |
| LocalExec.OnCompleted | internal/provider/data_source_local_exec.go:177-195 | `success` exactly when the exit code is 0, outputs copied, `fail_reason` ""; not saved exactly when the exit code is non-zero and `fail_on_error` is on, with one "Command failed" error naming code and stderr |
| LocalExec.ReadSpec | internal/provider/data_source_local_exec.go:125-195 | state saved exactly when no error was added, then with no diagnostic; an empty command is the one "Command list cannot be empty" error; the execution-error and completion rules above for the defaulted model |
| LocalExec.Read | internal/provider/data_source_local_exec.go:116-196 | the field-by-field `Read` produces `ReadSpec`'s response |
| LocalExec.EmptyCommandRunsNothing | internal/provider/data_source_local_exec.go:146-152 | with an empty command the process world is never consulted |
| LocalExec.ExpectSuccessIgnored | internal/provider/data_source_local_exec.go:129-131 | changing `expect_success` changes nothing but that field |
| RemoteExec.ScriptArgv | internal/provider/data_source_remote_exec.go:121 | the script path first, then the arguments unchanged |
| RemoteExec.ScriptOutcome | internal/provider/data_source_remote_exec.go:119-127 | the interpreter runs on the script with a 30-second timeout; an error is wrapped as "failed to execute script: …" |
| RemoteExec.ExecuteScript | internal/provider/data_source_remote_exec.go:119-127 | exactly one of result and error, as `ScriptOutcome` says |
| RemoteExec.Fallback | internal/provider/data_source_remote_exec.go:168-172 | `success` false, `stdout` "", `stderr` the error text, `exit_code` -1, nothing else changed |
| RemoteExec.Tolerate | internal/provider/data_source_remote_exec.go:155-199 | with `fail_on_error` one error and no state; otherwise one warning and the fallback state |
| RemoteExec.ReadSpec | internal/provider/data_source_remote_exec.go:130-209 | `fail_on_error` defaults to false; download and execution failures follow the error-or-fallback rule; a completed script is saved with `success` exactly for exit code 0 and its outputs copied, with no diagnostic |
| RemoteExec.Read | internal/provider/data_source_remote_exec.go:130-210 | the field-by-field `Read` produces `ReadSpec`'s response |
| RemoteExec.CompletionIsNeverAnError | internal/provider/data_source_remote_exec.go:203-209 | a script that ran is never an error, whatever its exit code and `fail_on_error` |
| Exfil.RequestFor | internal/provider/data_source_exfil.go:113-151 | one POST of the content to the endpoint, with the configured timeout or 10 seconds |
| Exfil.SuccessIsTwoHundreds | internal/provider/data_source_exfil.go:175 | a status counts as success exactly when its decimal text is three digits starting with "2", the 2xx class |
| Exfil.OnResponse | internal/provider/data_source_exfil.go:174-193 | `success` exactly for 200-299, `response_code` the status, `fail_reason` "HTTP <code>: <body>" on failure and untouched on success; not saved exactly when `expect_success` is set and the status is not 2xx, with one "Exfiltration Failed" error |
| Exfil.OnOutcome | internal/provider/data_source_exfil.go:140-193 | a malformed request is one "Request Creation Error"; a transport failure saves `success` false, code 0, "Request failed: …"; a body failure saves `success` false with the status; a response follows `OnResponse` |
| Exfil.ReadSpec | internal/provider/data_source_exfil.go:108-193 | state saved exactly when no error was added, then with no diagnostic; content, endpoint and timeout kept, `expect_success` defaulted to true; one exchange for `RequestFor`'s request |
| Exfil.Read | internal/provider/data_source_exfil.go:99-194 | the field-by-field `Read` produces `ReadSpec`'s response |
| NetworkProbe.ProbeDns | internal/provider/data_source_network_probe.go:180-186 | success exactly when the name resolves; otherwise "DNS resolution failed: …" |
| NetworkProbe.HostPort | internal/provider/data_source_network_probe.go:190 | `host:port`, the host then ":" then the decimal port |
| NetworkProbe.ProbeDial | internal/provider/data_source_network_probe.go:189-208 | success exactly when dialling `host:port` succeeds; otherwise "TCP/UDP connection failed: …" |
| NetworkProbe.FirstReachable | internal/provider/data_source_network_probe.go:222-229 | the index of the first address that dials, every earlier one failing, or -1 when none does |
| NetworkProbe.IcmpOutcome | internal/provider/data_source_network_probe.go:211-231 | success exactly when resolution succeeds and some address dials; "Failed to resolve host: …", "No IP addresses found" or "ICMP ping failed for all IP addresses" otherwise |
| NetworkProbe.ProbeIcmp | internal/provider/data_source_network_probe.go:211-231 | the loop gives `IcmpOutcome` and stops right after the first reachable address |
| NetworkProbe.Validate | internal/provider/data_source_network_probe.go:111-133 | the first failing check decides the diagnostic: "Invalid probe type" for a missing type, then "Invalid host", then for tcp and udp "Missing port" before "Invalid port" (outside 1-65535); valid exactly when all hold |
| NetworkProbe.Dispatch | internal/provider/data_source_network_probe.go:147-159 | dns runs `ProbeDns` and icmp `IcmpOutcome` on the host with the timeout; tcp and udp run `ProbeDial` on host and port with their own network and label; any other type gives no probe; a failed probe has a non-empty reason and a passed one "" |
| NetworkProbe.WithDefaults | internal/provider/data_source_network_probe.go:103-109 | null `expect_success` and timeout become true and 5 |
| NetworkProbe.ReadSpec | internal/provider/data_source_network_probe.go:95-177 | the first failed check is the only diagnostic; an unknown type is "unsupported probe type: …"; a supported probe is always saved: the defaulted configuration unchanged, with `success` and `fail_reason` taken from the probe `Dispatch` selects |
| NetworkProbe.RunProbe | internal/provider/data_source_network_probe.go:147-159 | the switch on the type gives `Dispatch`'s probe |
| NetworkProbe.Read | internal/provider/data_source_network_probe.go:95-177 | the field-by-field `Read` produces `ReadSpec`'s response |
| NetworkProbe.ExpectSuccessIgnored | internal/provider/data_source_network_probe.go:104-106 | changing `expect_success` changes nothing but that field |
| EnvDump.Parse | internal/provider/data_source_env_dump.go:80-88 | no key holds "=", and there are no more keys than entries |
| EnvDump.ParseKeys | internal/provider/data_source_env_dump.go:81-88 | a key is in the parsed map exactly when some entry holding "=" has it before its first "=" |
| EnvDump.ParseLastWins | internal/provider/data_source_env_dump.go:81-88 | a key maps to the value after the first "=" of its last entry |
| EnvDump.Mask | internal/provider/data_source_env_dump.go:91-95 | keys kept, every value "<REDACTED>" |
| EnvDump.Read | internal/provider/data_source_env_dump.go:64-113 | no diagnostic, state saved, `mask_values` defaulted to true, `id` "env_dump", `vars` the parsed environment, masked when asked |
| Identity.DetectProviderAndEnvironment | internal/provider/data_source_identity.go:145-158 | "aws" exactly when `AWS_ACCESS_KEY_ID` is non-empty, with `AWS_REGION` or else "us-east-1"; otherwise ("", "") |
| Identity.DetermineCallerInfo | internal/provider/data_source_identity.go:204-220 | assumed-role, role, user or unknown by service and type; an assumed role with exactly one "/" splits into role and session names; otherwise the name is the whole ID and the session "" |
| Identity.AssumedRoleRoundTrip | internal/provider/data_source_identity.go:206-210 | `role/session` gives back the role and the session |
| Identity.SplitResource | internal/provider/data_source_identity.go:187-192 | an error exactly when there is no "/"; otherwise type + "/" + ID rebuilds the resource, and the type has no "/" |
| Identity.SplitResourceRoundTrip | internal/provider/data_source_identity.go:187-192 | a type without "/" and any ID come back out of `type/ID` |
| Identity.AwsIdentity | internal/provider/data_source_identity.go:160-201 | configuration and call failures write nothing; account and ARN are written once STS answers; ARN and resource-format failures keep them; success sets the caller fields from `DetermineCallerInfo`; errors carry the source's prefixes |
| Identity.GetAwsIdentity | internal/provider/data_source_identity.go:160-201 | the field-by-field update gives `AwsIdentity`'s model and error |
| Identity.Unknowns | internal/provider/data_source_identity.go:115-119 | the five identity fields "unknown", the rest kept |
| Identity.IdentifySpec | internal/provider/data_source_identity.go:109-136 | a failed AWS lookup is one "Failed to get AWS identity" warning and overwrites any partial values with "unknown"; no provider gives "unknown" silently; another provider gives an "Unsupported provider" warning |
| Identity.Identify | internal/provider/data_source_identity.go:109-136 | the switch gives `IdentifySpec`'s model and warnings |
| Identity.ReadSpec | internal/provider/data_source_identity.go:91-143 | always saved and never an error; provider and region recorded; `id` is provider + "-" + account; without credentials no warning, empty provider and region, all five identity fields "unknown" and `id` "-unknown"; with them the lookup's result or "unknown" everywhere with one warning |
| Identity.Read | internal/provider/data_source_identity.go:91-143 | the field-by-field `Read` produces `ReadSpec`'s response |
| Identity.NoCredentialsNoLookup | internal/provider/data_source_identity.go:145-157 | without AWS credentials STS is never consulted |
| Tfstate.ProviderOf | internal/provider/data_source_tfstate.go:120-122 | the type up to its first "_": a prefix of the type without "_", followed by "_" or the end |
| Tfstate.SensitiveNames | internal/provider/data_source_tfstate.go:151-157 | exactly the outputs marked sensitive |
| Tfstate.TypesOfMembers | internal/provider/data_source_tfstate.go:115-119 | a type is collected exactly when some resource has it |
| Tfstate.ProvidersOfTypes | internal/provider/data_source_tfstate.go:120-122 | the provider prefixes are exactly the prefixes of the collected types |
| Tfstate.ModulesOfMembers | internal/provider/data_source_tfstate.go:137-144 | a module is listed exactly when it is "" or some child's address |
| Tfstate.TypesBound | internal/provider/data_source_tfstate.go:205 | no more distinct types than resources |
| Tfstate.ProvidersBound | internal/provider/data_source_tfstate.go:120-122 | no more provider prefixes than distinct types |
| Tfstate.ExtractResourceInfo | internal/provider/data_source_tfstate.go:112-126 | the loop collects exactly the types and the provider prefixes |
| Tfstate.ExtractModuleNames | internal/provider/data_source_tfstate.go:129-145 | the loop collects "" and exactly the child addresses |
| Tfstate.ExtractSensitiveOutputs | internal/provider/data_source_tfstate.go:148-158 | a name is present exactly when its output is sensitive, always with value true |
| Tfstate.MapToSlice | internal/provider/data_source_tfstate.go:161-167 | every key exactly once, in some order, so the length is the set's size |
| Tfstate.EnumeratesSize | internal/provider/data_source_tfstate.go:161-167 | a duplicate-free list of a set's elements is as long as the set |
| Tfstate.Read | internal/provider/data_source_tfstate.go:170-245 | a command failure is one "Failed to read state" error and a decode failure one "Failed to parse state JSON" error, neither saving state; otherwise, whatever the exit code, `success` true, the raw JSON, `resource_count` the number of resources, duplicate-free lists of types, providers and modules, and the sensitive outputs |
| Tfstate.ReportBounds | internal/provider/data_source_tfstate.go:205-212 | saved lists: providers no longer than types, types no longer than `resource_count`, modules always with "" |

## Left out

- Terraform framework plumbing is not modelled: `Schema`, `Metadata`, `Configure`, `Config.Get`, `ElementsAs`, `State.Set`, `ListValueFrom` and `MapValueFrom`. Their diagnostics are taken to be empty, and a saved model is a Dafny value.
- `duration_ms` in `local_exec` and `network_probe` is not modelled. It is wall-clock time (`time.Since`).
- Contexts and timeouts are not modelled as timing. A timeout is passed through, and an expired context is an input to `Execute`.
- Process execution, the script download, HTTP, DNS, dialling, `os.Environ`/`os.Getenv` and the AWS SDK are not modelled. Each is a parameter that says what the call returned.
- The download is represented only by the `Download` input. `internal/utils/download.go` is not part of this model: the temporary file, GET and non-200 rule of `utils.DownloadFile`, and the `chmod` of `downloadScript` (`data_source_remote_exec.go:111`), are folded into that input.
- The deferred `os.Remove` of the script after the run (`data_source_remote_exec.go:176`) is dropped. It only deletes the file, its error is ignored, and it changes no field of the response.
- The exfil JSON payload encoding is not modelled: encoding a map of one string cannot fail. The JSON decoding in `tfstate` is an input.
- `arn.Parse` is not modelled. It is AWS SDK code, given as `parseArn`, whose result is the service and resource or an error text.
- Headers are not modelled. The `User-Agent` comes from `GetUserAgent`, which depends on runtime constants.
- Go map iteration order is not modelled. `mapToSlice`'s lists are specified by their elements and distinctness. The masking loop and `extractSensitiveOutputs` pick keys in any order, and their results do not depend on it.
- The "Probe error" branch of `network_probe`'s `Read` is not modelled. The four probes never return a non-nil error, so that branch cannot be taken.
- Identity.Read: the "Unsupported provider" warning cannot be reached through `Read`, because detection yields only "aws" or "". It is modelled in `Identify`, which takes the provider as an argument.
- Go strings are byte strings; here they are Dafny character strings. Every separator the code cuts, splits or joins on ("=", "/", "_", ":") is ASCII, so the results are the same.
- `tflog.Trace` in `env_dump` is dropped. It only writes a log line.
- Integer widths are not modelled. `int64` fields are unbounded integers, and the timeouts' multiplication into a `time.Duration` is not modelled.
- Exfil.ReadSpec: its contract delegates the per-outcome promises to `OnOutcome` and `OnResponse`, and restates only the saved/no-error relation and the unchanged inputs itself.
