/**
 internal/provider/data_source_network_probe.go: the `terrapwner_network_probe`
 data source validates its inputs (type, then host, then the port for tcp and
 udp), dispatches on the probe type and records whether the probe passed.
 A failed probe is saved as state, never reported as an error.

 Name resolution and dialling are inputs: `lookup(host, deadline)` is what the
 resolver answers under a context that expires after `deadline` seconds, and
 `dial(network, address)` is `nil` (None) when `net.DialTimeout` connects and
 the error text otherwise.
 */
module NetworkProbe {
  import opened Framework
  import opened Strings

  /** `TerrapwnerNetworkProbeDataSourceModel` (without `duration_ms`). */
  datatype Model = Model(
    probeType: Option<string>,
    host: Option<string>,
    port: Option<int>,
    expectSuccess: Option<bool>,
    timeout: Option<int>,
    success: Option<bool>,
    failReason: Option<string>)

  /** What `LookupHost` / `LookupIPAddr` returned. */
  datatype Lookup = Resolved(addrs: seq<string>) | LookupFailed(reason: string)

  /** The `(bool, string)` part of a probe's result; the `error` part is always nil. */
  datatype Probe = Probe(success: bool, failReason: string)

  type Resolver = (string, int) -> Lookup
  type Dialer = (string, string) -> Option<string>

  /** Line 108: the context timeout when none is configured, in seconds. */
  const DefaultTimeout := 5

  /** `probeDNS` (lines 180-186). */
  function ProbeDns(lookup: Resolver, host: string, deadline: int): (p: Probe)
    ensures p.success <==> lookup(host, deadline).Resolved?
    ensures p.success ==> p.failReason == ""
    ensures !p.success ==> p.failReason == "DNS resolution failed: " + lookup(host, deadline).reason
  {
    match lookup(host, deadline)
    case LookupFailed(reason) => Probe(false, "DNS resolution failed: " + reason)
    case Resolved(_) => Probe(true, "")
  }

  /** `fmt.Sprintf("%s:%d", host, port)`. */
  function HostPort(host: string, port: int): (addr: string)
    ensures |addr| == |host| + 1 + |FormatInt(port)|
    ensures addr[..|host|] == host && addr[|host|] == ':' && addr[|host| + 1..] == FormatInt(port)
  {
    host + ":" + FormatInt(port)
  }

  /** `probeTCP` and `probeUDP` (lines 189-208): one dial of `network` to host:port. */
  function ProbeDial(dial: Dialer, network: string, kind: string, host: string, port: int): (p: Probe)
    ensures p.success <==> dial(network, HostPort(host, port)).None?
    ensures p.success ==> p.failReason == ""
    ensures !p.success ==>
      p.failReason == kind + " connection failed: " + dial(network, HostPort(host, port)).value
  {
    match dial(network, HostPort(host, port))
    case Some(err) => Probe(false, kind + " connection failed: " + err)
    case None => Probe(true, "")
  }

  /** Index of the first address that answers an ICMP dial, or -1 when none does. */
  function FirstReachable(dial: Dialer, ips: seq<string>): (k: int)
    ensures -1 <= k < |ips|
    ensures k == -1 <==> forall i :: 0 <= i < |ips| ==> dial("ip4:icmp", ips[i]).Some?
    ensures 0 <= k ==> dial("ip4:icmp", ips[k]).None?
    ensures 0 <= k ==> forall i :: 0 <= i < k ==> dial("ip4:icmp", ips[i]).Some?
  {
    if |ips| == 0 then -1
    else if dial("ip4:icmp", ips[0]).None? then 0
    else
      var k := FirstReachable(dial, ips[1..]);
      if k == -1 then -1 else k + 1
  }

  /** What `probeICMP` returns (lines 211-232). */
  function IcmpOutcome(lookup: Resolver, dial: Dialer, host: string, deadline: int): (p: Probe)
    ensures p.success <==>
      lookup(host, deadline).Resolved? &&
      (exists i :: 0 <= i < |lookup(host, deadline).addrs| && dial("ip4:icmp", lookup(host, deadline).addrs[i]).None?)
    ensures p.success ==> p.failReason == ""
    ensures lookup(host, deadline).LookupFailed? ==>
      p.failReason == "Failed to resolve host: " + lookup(host, deadline).reason
    ensures lookup(host, deadline) == Resolved([]) ==> p.failReason == "No IP addresses found"
    ensures lookup(host, deadline).Resolved? && |lookup(host, deadline).addrs| > 0 && !p.success ==>
      p.failReason == "ICMP ping failed for all IP addresses"
  {
    match lookup(host, deadline)
    case LookupFailed(reason) => Probe(false, "Failed to resolve host: " + reason)
    case Resolved(ips) =>
      if |ips| == 0 then Probe(false, "No IP addresses found")
      else if FirstReachable(dial, ips) >= 0 then Probe(true, "")
      else Probe(false, "ICMP ping failed for all IP addresses")
  }

  /**
   `probeICMP`: try each resolved address in order and stop at the first one
   that answers. `attempts` counts the dials made.
   */
  method ProbeIcmp(lookup: Resolver, dial: Dialer, host: string, deadline: int)
    returns (success: bool, failReason: string, ghost attempts: nat)
    ensures Probe(success, failReason) == IcmpOutcome(lookup, dial, host, deadline)
    ensures lookup(host, deadline).Resolved? ==>
      var ips := lookup(host, deadline).addrs;
      var k := FirstReachable(dial, ips);
      attempts == if k >= 0 then k + 1 else |ips|
  {
    attempts := 0;
    var lookedUp := lookup(host, deadline);
    if lookedUp.LookupFailed? {
      return false, "Failed to resolve host: " + lookedUp.reason, attempts;
    }
    var ips := lookedUp.addrs;
    if |ips| == 0 {
      return false, "No IP addresses found", attempts;
    }

    for i := 0 to |ips|
      invariant attempts == i
      invariant forall j :: 0 <= j < i ==> dial("ip4:icmp", ips[j]).Some?
    {
      attempts := attempts + 1;
      var err := dial("ip4:icmp", ips[i]);
      if err.Some? {
        continue;
      }
      assert FirstReachable(dial, ips) == i;
      return true, "", attempts;
    }

    return false, "ICMP ping failed for all IP addresses", attempts;
  }

  /** A type and a host are both given. */
  predicate ValidTarget(data: Model) {
    && data.probeType.Some? && data.probeType.value != ""
    && data.host.Some? && data.host.value != ""
  }

  /** Lines 111-133: the first validation failure, in the order the checks run. */
  function Validate(data: Model): (d: Option<Diagnostic>)
    ensures d.Some? ==> d.value.severity == Error
    ensures (data.probeType.None? || data.probeType.value == "") ==>
      d == Some(Diagnostic(Error, "Invalid probe type", "type must be specified"))
    ensures data.probeType.Some? && data.probeType.value != "" && (data.host.None? || data.host.value == "") ==>
      d == Some(Diagnostic(Error, "Invalid host", "host must be specified"))
    // lines 124-133: for tcp and udp, presence of the port is checked before its range
    ensures ValidTarget(data) && data.probeType.value in {"tcp", "udp"} && data.port.None? ==>
      d == Some(Diagnostic(Error, "Missing port", "port is required for tcp/udp probes"))
    ensures ValidTarget(data) && data.probeType.value in {"tcp", "udp"} && data.port.Some? &&
            (data.port.value < 1 || data.port.value > 65535) ==>
      d == Some(Diagnostic(Error, "Invalid port", "port must be between 1 and 65535"))
    ensures d.None? <==>
      && data.probeType.Some? && data.probeType.value != ""
      && data.host.Some? && data.host.value != ""
      && (data.probeType.value in {"tcp", "udp"} ==> data.port.Some? && 1 <= data.port.value <= 65535)
  {
    if data.probeType.None? || data.probeType.value == "" then
      Some(Diagnostic(Error, "Invalid probe type", "type must be specified"))
    else if data.host.None? || data.host.value == "" then
      Some(Diagnostic(Error, "Invalid host", "host must be specified"))
    else if data.probeType.value == "tcp" || data.probeType.value == "udp" then
      if data.port.None? then Some(Diagnostic(Error, "Missing port", "port is required for tcp/udp probes"))
      else if data.port.value < 1 || data.port.value > 65535 then
        Some(Diagnostic(Error, "Invalid port", "port must be between 1 and 65535"))
      else None
    else None
  }

  /** Lines 147-159: the probe a validated type selects; None for an unsupported type. */
  function Dispatch(data: Model, lookup: Resolver, dial: Dialer): (p: Option<Probe>)
    requires Validate(data).None?
    ensures p.None? <==> data.probeType.value !in {"dns", "tcp", "udp", "icmp"}
    // lines 147-155: which probe each type runs, on the configured host, port and timeout
    ensures data.probeType.value == "dns" ==>
      p == Some(ProbeDns(lookup, data.host.value, data.timeout.GetOr(DefaultTimeout)))
    ensures data.probeType.value == "tcp" ==> p == Some(ProbeDial(dial, "tcp", "TCP", data.host.value, data.port.value))
    ensures data.probeType.value == "udp" ==> p == Some(ProbeDial(dial, "udp", "UDP", data.host.value, data.port.value))
    ensures data.probeType.value == "icmp" ==>
      p == Some(IcmpOutcome(lookup, dial, data.host.value, data.timeout.GetOr(DefaultTimeout)))
    ensures p.Some? && !p.value.success ==> p.value.failReason != ""
    ensures p.Some? && p.value.success ==> p.value.failReason == ""
  {
    var host := data.host.value;
    var deadline := data.timeout.GetOr(DefaultTimeout);
    match data.probeType.value
    case "dns" => Some(ProbeDns(lookup, host, deadline))
    case "tcp" => Some(ProbeDial(dial, "tcp", "TCP", host, data.port.value))
    case "udp" => Some(ProbeDial(dial, "udp", "UDP", host, data.port.value))
    case "icmp" => Some(IcmpOutcome(lookup, dial, host, deadline))
    case _ => None
  }

  function WithDefaults(config: Model): (data: Model)
    ensures data.expectSuccess == Some(config.expectSuccess.GetOr(true))
    ensures data.timeout == Some(config.timeout.GetOr(DefaultTimeout))
    ensures data == config.(expectSuccess := data.expectSuccess, timeout := data.timeout)
  {
    config.(expectSuccess := Some(config.expectSuccess.GetOr(true)), timeout := Some(config.timeout.GetOr(DefaultTimeout)))
  }

  /** What `Read` produces, as a function of the configuration, the resolver and the dialler. */
  function ReadSpec(config: Model, lookup: Resolver, dial: Dialer): (resp: Response<Model>)
    ensures resp.state.Some? <==> !HasError(resp.diagnostics)
    ensures resp.state.Some? ==> resp.diagnostics == []
    // lines 111-133: the first failed check is the only diagnostic
    ensures Validate(config).Some? ==> resp == Response([Validate(config).value], None)
    // lines 156-158
    ensures Validate(config).None? && config.probeType.value !in {"dns", "tcp", "udp", "icmp"} ==>
      resp == Response([Diagnostic(Error, "Invalid probe type", "unsupported probe type: " + config.probeType.value)], None)
    // lines 170-176: a supported probe is always saved; a failed one carries a reason
    ensures Validate(config).None? && config.probeType.value in {"dns", "tcp", "udp", "icmp"} ==>
      && resp.state.Some?
      && resp.state.value.expectSuccess == Some(config.expectSuccess.GetOr(true))
      && resp.state.value.timeout == Some(config.timeout.GetOr(DefaultTimeout))
      && (resp.state.value.success == Some(true) ==> resp.state.value.failReason == Some(""))
      && (resp.state.value.success == Some(false) ==> resp.state.value.failReason != Some(""))
      && resp.state.value.success.Some? && resp.state.value.failReason.Some?
    // lines 170-171: the selected probe's outcome is saved, every configured attribute kept
    ensures Validate(config).None? && Dispatch(WithDefaults(config), lookup, dial).Some? ==>
      var p := Dispatch(WithDefaults(config), lookup, dial).value;
      resp.state == Some(WithDefaults(config).(success := Some(p.success), failReason := Some(p.failReason)))
  {
    var data := WithDefaults(config);
    match Validate(data)
    case Some(d) => Empty<Model>().AddError(d.summary, d.detail)
    case None =>
      match Dispatch(data, lookup, dial)
      case None => Empty<Model>().AddError("Invalid probe type", "unsupported probe type: " + data.probeType.value)
      case Some(p) => Empty<Model>().SetState(data.(success := Some(p.success), failReason := Some(p.failReason)))
  }

  /** Lines 145-159: the switch on the probe type, `None` for a type it does not know. */
  method RunProbe(state: Model, lookup: Resolver, dial: Dialer) returns (probe: Option<Probe>)
    requires Validate(state).None?
    ensures probe == Dispatch(state, lookup, dial)
  {
    var deadline := state.timeout.GetOr(DefaultTimeout);
    var success: bool;
    var failReason: string;

    match state.probeType.value {
      case "dns" =>
        var p := ProbeDns(lookup, state.host.value, deadline);
        success, failReason := p.success, p.failReason;
      case "tcp" =>
        var p := ProbeDial(dial, "tcp", "TCP", state.host.value, state.port.value);
        success, failReason := p.success, p.failReason;
      case "udp" =>
        var p := ProbeDial(dial, "udp", "UDP", state.host.value, state.port.value);
        success, failReason := p.success, p.failReason;
      case "icmp" =>
        ghost var attempts;
        success, failReason, attempts := ProbeIcmp(lookup, dial, state.host.value, deadline);
      case _ =>
        return None;
    }
    return Some(Probe(success, failReason));
  }

  /** `Read`: defaults, validation, dispatch, then the state. */
  method Read(config: Model, lookup: Resolver, dial: Dialer) returns (resp: Response<Model>)
    ensures resp == ReadSpec(config, lookup, dial)
  {
    resp := Empty();
    var state := config;

    if state.expectSuccess.None? {
      state := state.(expectSuccess := Some(true));
    }
    if state.timeout.None? {
      state := state.(timeout := Some(DefaultTimeout));
    }

    assert state == WithDefaults(config);
    if state.probeType.None? || state.probeType.value == "" {
      resp := resp.AddError("Invalid probe type", "type must be specified");
      return;
    }

    if state.host.None? || state.host.value == "" {
      resp := resp.AddError("Invalid host", "host must be specified");
      return;
    }

    if state.probeType.value == "tcp" || state.probeType.value == "udp" {
      if state.port.None? {
        resp := resp.AddError("Missing port", "port is required for tcp/udp probes");
        return;
      }
      if state.port.value < 1 || state.port.value > 65535 {
        resp := resp.AddError("Invalid port", "port must be between 1 and 65535");
        return;
      }
    }

    var probe := RunProbe(state, lookup, dial);
    if probe.None? {
      resp := resp.AddError("Invalid probe type", "unsupported probe type: " + state.probeType.value);
      return;
    }

    state := state.(success := Some(probe.value.success));
    state := state.(failReason := Some(probe.value.failReason));

    resp := resp.SetState(state);
  }

  /** `expect_success` is defaulted and saved, but nothing else depends on it. */
  lemma ExpectSuccessIgnored(config: Model, lookup: Resolver, dial: Dialer, flag: Option<bool>)
    ensures var a := ReadSpec(config, lookup, dial);
            var b := ReadSpec(config.(expectSuccess := flag), lookup, dial);
            && a.diagnostics == b.diagnostics
            && a.state.Some? == b.state.Some?
            && (a.state.Some? ==> a.state.value == b.state.value.(expectSuccess := a.state.value.expectSuccess))
  {
  }
}
