/**
 internal/provider/data_source_exfil.go: the `terrapwner_exfil` data source
 POSTs content to an endpoint and records whether the response was 2xx, the
 status code and a failure reason. Only a non-2xx response with
 `expect_success` set is an error diagnostic; transport and body-read
 failures are saved as state.

 The HTTP exchange is an input: for each request, what building and sending
 it gave.
 */
module Exfil {
  import opened Framework
  import opened Strings

  /** Line 114: the request timeout when none is configured, in seconds. */
  const DefaultTimeout := 10

  /** `TerrapwnerExfilDataSourceModel`. */
  datatype Model = Model(
    content: string,
    endpoint: string,
    timeout: Option<int>,
    expectSuccess: Option<bool>,
    success: Option<bool>,
    failReason: Option<string>,
    responseCode: Option<int>)

  /** The request Read sends: method, URL, the content carried in the JSON payload, client timeout. */
  datatype Request = Request(httpMethod: string, url: string, content: string, timeoutSeconds: int)

  /** What building the request, `client.Do` and `io.ReadAll` gave. */
  datatype HttpOutcome =
    | Malformed(reason: string)                 // http.NewRequestWithContext failed
    | TransportFailed(reason: string)           // client.Do failed
    | BodyFailed(status: int, reason: string)   // io.ReadAll failed
    | Responded(status: int, body: string)

  /** Line 175. */
  predicate IsSuccessStatus(status: int) {
    200 <= status < 300
  }

  /** A status counts as success exactly when its `%d` text is "2" and two more digits: the 2xx class. */
  lemma SuccessIsTwoHundreds(status: int)
    ensures IsSuccessStatus(status) <==> |FormatInt(status)| == 3 && FormatInt(status)[0] == '2'
  {
    if status >= 0 {
      ThreeDigits(status);
    }
  }

  /** The request built from the configuration (lines 113-151). */
  function RequestFor(config: Model): (req: Request)
    ensures req.httpMethod == "POST" && req.url == config.endpoint && req.content == config.content
    ensures req.timeoutSeconds == config.timeout.GetOr(DefaultTimeout)
  {
    Request("POST", config.endpoint, config.content, config.timeout.GetOr(DefaultTimeout))
  }

  /** Lines 174-190: the mapping of a received response. */
  function OnResponse(data: Model, status: int, body: string): (resp: Response<Model>)
    requires data.expectSuccess.Some?
    ensures resp.state.Some? <==> !HasError(resp.diagnostics)
    ensures resp.state.None? <==> data.expectSuccess.value && !IsSuccessStatus(status)
    ensures resp.state.Some? ==>
      && resp.diagnostics == []
      && resp.state.value.success == Some(IsSuccessStatus(status))
      && resp.state.value.responseCode == Some(status)
      && resp.state.value.failReason ==
           (if IsSuccessStatus(status) then data.failReason else Some("HTTP " + FormatInt(status) + ": " + body))
      && resp.state.value == data.(success := resp.state.value.success, responseCode := resp.state.value.responseCode,
                                   failReason := resp.state.value.failReason)
    ensures resp.state.None? ==>
      resp.diagnostics == [Diagnostic(Error, "Exfiltration Failed",
        "Expected successful exfiltration but got HTTP " + FormatInt(status) + ": " + body)]
  {
    var isSuccess := IsSuccessStatus(status);
    var data := data.(success := Some(isSuccess), responseCode := Some(status));
    var data := if !isSuccess then data.(failReason := Some("HTTP " + FormatInt(status) + ": " + body)) else data;
    if data.expectSuccess.value && !isSuccess then
      var failed := Empty<Model>().AddError("Exfiltration Failed",
        "Expected successful exfiltration but got HTTP " + FormatInt(status) + ": " + body);
      assert failed.diagnostics[0] in failed.diagnostics;
      failed
    else Empty<Model>().SetState(data)
  }

  /** Lines 140-193: the mapping of whatever the exchange gave. */
  function OnOutcome(data: Model, outcome: HttpOutcome): (resp: Response<Model>)
    requires data.expectSuccess.Some?
    ensures resp.state.Some? <==> !HasError(resp.diagnostics)
    ensures resp.state.Some? ==> resp.diagnostics == []
    // lines 140-147
    ensures outcome.Malformed? ==>
      resp == Response([Diagnostic(Error, "Request Creation Error", "Failed to create request: " + outcome.reason)], None)
    // lines 154-161: saved whatever expect_success says
    ensures outcome.TransportFailed? ==>
      resp.state == Some(data.(success := Some(false), failReason := Some("Request failed: " + outcome.reason),
                               responseCode := Some(0)))
    // lines 165-172
    ensures outcome.BodyFailed? ==>
      resp.state == Some(data.(success := Some(false), failReason := Some("Failed to read response: " + outcome.reason),
                               responseCode := Some(outcome.status)))
    // lines 174-193
    ensures outcome.Responded? ==> resp == OnResponse(data, outcome.status, outcome.body)
  {
    match outcome
    case Malformed(reason) => Empty<Model>().AddError("Request Creation Error", "Failed to create request: " + reason)
    case TransportFailed(reason) =>
      Empty<Model>().SetState(data.(success := Some(false), failReason := Some("Request failed: " + reason),
                                    responseCode := Some(0)))
    case BodyFailed(status, reason) =>
      Empty<Model>().SetState(data.(success := Some(false), failReason := Some("Failed to read response: " + reason),
                                    responseCode := Some(status)))
    case Responded(status, body) => OnResponse(data, status, body)
  }

  /** What `Read` produces, as a function of the configuration and of the exchange. */
  function ReadSpec(config: Model, send: Request -> HttpOutcome): (resp: Response<Model>)
    ensures resp.state.Some? <==> !HasError(resp.diagnostics)
    ensures resp.state.Some? ==> resp.diagnostics == []
    // lines 113-118: the only inputs written are the defaulted `expect_success`
    ensures resp.state.Some? ==>
      resp.state.value == resp.state.value.(content := config.content, endpoint := config.endpoint,
                                            timeout := config.timeout,
                                            expectSuccess := Some(config.expectSuccess.GetOr(true)))
    // lines 119-151: exactly one POST of the content to the endpoint
    ensures resp == OnOutcome(config.(expectSuccess := Some(config.expectSuccess.GetOr(true))), send(RequestFor(config)))
  {
    var data := config.(expectSuccess := Some(config.expectSuccess.GetOr(true)));
    assert RequestFor(data) == RequestFor(config);
    OnOutcome(data, send(RequestFor(data)))
  }

  /** `Read`: defaults, one request, then the outcome mapping. */
  method Read(config: Model, send: Request -> HttpOutcome) returns (resp: Response<Model>)
    ensures resp == ReadSpec(config, send)
  {
    resp := Empty();
    var data := config;

    if data.expectSuccess.None? {
      data := data.(expectSuccess := Some(true));
    }

    var timeout := DefaultTimeout;
    if data.timeout.Some? {
      timeout := data.timeout.value;
    }

    var outcome := send(Request("POST", data.endpoint, data.content, timeout));
    assert Request("POST", data.endpoint, data.content, timeout) == RequestFor(config);
    assert ReadSpec(config, send) == OnOutcome(data, outcome);
    if outcome.Malformed? {
      resp := resp.AddError("Request Creation Error", "Failed to create request: " + outcome.reason);
      return;
    }

    if outcome.TransportFailed? {
      data := data.(success := Some(false));
      data := data.(failReason := Some("Request failed: " + outcome.reason));
      data := data.(responseCode := Some(0));
      resp := resp.SetState(data);
      return;
    }

    if outcome.BodyFailed? {
      data := data.(success := Some(false));
      data := data.(failReason := Some("Failed to read response: " + outcome.reason));
      data := data.(responseCode := Some(outcome.status));
      resp := resp.SetState(data);
      return;
    }

    var status, body := outcome.status, outcome.body;
    var isSuccess := status >= 200 && status < 300;
    data := data.(success := Some(isSuccess));
    data := data.(responseCode := Some(status));

    if !isSuccess {
      data := data.(failReason := Some("HTTP " + FormatInt(status) + ": " + body));
    }

    if data.expectSuccess.value && !isSuccess {
      resp := resp.AddError("Exfiltration Failed",
        "Expected successful exfiltration but got HTTP " + FormatInt(status) + ": " + body);
      return;
    }

    resp := resp.SetState(data);
  }
}
