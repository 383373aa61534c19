/**
 internal/provider/data_source_identity.go: the `terrapwner_identity` data
 source reports who is running Terraform. It detects AWS from the
 environment, asks STS for the caller identity and reads the caller's kind,
 name and session out of the ARN. A failure is only ever a warning: the
 identity fields become "unknown" and the state is saved anyway.

 The environment (`os.Getenv`), the STS exchange (configuration loading and
 `GetCallerIdentity`, per region) and the SDK's `arn.Parse` are inputs.
 */
module Identity {
  import opened Framework
  import opened Strings

  /** The value every identity field takes when the identity is not known. */
  const Unknown := "unknown"

  /** Line 151. */
  const DefaultRegion := "us-east-1"

  /** `TerrapwnerIdentityDataSourceModel`. */
  datatype Model = Model(
    id: Option<string>,
    cloudProvider: Option<string>,
    accountId: Option<string>,
    resourceId: Option<string>,
    callerName: Option<string>,
    callerType: Option<string>,
    sessionName: Option<string>,
    region: Option<string>)

  /** What `detectProviderAndEnvironment` returns. */
  datatype Detected = Detected(provider: string, region: string)

  /** The caller's kind, name and session, as `determineCallerInfo` returns them. */
  datatype Caller = Caller(callerType: string, callerName: string, sessionName: string)

  /** The resource part of an ARN cut at its first "/". */
  datatype ResourceParts = ResourceParts(resourceType: string, resourceId: string)

  /** The fields of a parsed ARN that the data source uses. */
  datatype Arn = Arn(service: string, resource: string)

  /** What `arn.Parse` returned. */
  datatype ArnParse = ArnParsed(arn: Arn) | ArnRejected(reason: string)

  /** What loading the AWS configuration for a region and calling `GetCallerIdentity` gave. */
  datatype StsOutcome =
    | ConfigFailed(reason: string)
    | CallFailed(reason: string)
    | Answered(account: string, arn: string)

  /** `getAWSIdentity`'s effect: the model as it left it and the error it returned. */
  datatype Attempt = Attempt(data: Model, err: Option<string>)

  /** The switch on the provider: the model it leaves and the warnings it adds. */
  datatype Identified = Identified(data: Model, warnings: seq<Diagnostic>)

  /** Lines 145-158: AWS credentials in the environment mean AWS, in their region or the default one. */
  function DetectProviderAndEnvironment(getenv: string -> string): (d: Detected)
    ensures d.provider == "aws" || d.provider == ""
    ensures d.provider == "aws" <==> getenv("AWS_ACCESS_KEY_ID") != ""
    ensures d.provider == "" ==> d.region == ""
    ensures d.provider == "aws" ==> d.region != ""
    ensures d.provider == "aws" && getenv("AWS_REGION") != "" ==> d.region == getenv("AWS_REGION")
    ensures d.provider == "aws" && getenv("AWS_REGION") == "" ==> d.region == DefaultRegion
  {
    if getenv("AWS_ACCESS_KEY_ID") != "" then
      var region := getenv("AWS_REGION");
      Detected("aws", if region == "" then DefaultRegion else region)
    else Detected("", "")
  }

  /**
   Lines 204-220: the caller's kind follows the service and resource type; an
   assumed role's resource ID is split into role and session when it holds
   exactly one "/", and is the caller name whole otherwise.
   */
  function DetermineCallerInfo(service: string, resourceType: string, resourceID: string): (c: Caller)
    ensures c.callerType == "assumed-role" <==> service == "sts" && resourceType == "assumed-role"
    ensures c.callerType == "role" <==> service == "iam" && resourceType == "role"
    ensures c.callerType == "user" <==> service == "iam" && resourceType == "user"
    ensures c.callerType !in {"assumed-role", "role", "user"} ==> c.callerType == Unknown
    ensures c.callerType == "assumed-role" && multiset(resourceID)['/'] == 1 ==>
      && resourceID == c.callerName + "/" + c.sessionName
      && '/' !in c.callerName && '/' !in c.sessionName
    ensures !(c.callerType == "assumed-role" && multiset(resourceID)['/'] == 1) ==>
      c.callerName == resourceID && c.sessionName == ""
  {
    if service == "sts" && resourceType == "assumed-role" then
      var parts := Split(resourceID, '/');
      SplitCount(resourceID, '/');
      if |parts| == 2 then
        assert Join(parts[1..], '/') == parts[1];
        Caller("assumed-role", parts[0], parts[1])
      else Caller("assumed-role", resourceID, "")
    else if service == "iam" && resourceType == "role" then Caller("role", resourceID, "")
    else if service == "iam" && resourceType == "user" then Caller("user", resourceID, "")
    else Caller(Unknown, resourceID, "")
  }

  /** An assumed role's role name and session name come back out of `role/session`. */
  lemma AssumedRoleRoundTrip(role: string, session: string)
    requires '/' !in role && '/' !in session
    ensures DetermineCallerInfo("sts", "assumed-role", role + "/" + session) == Caller("assumed-role", role, session)
  {
    assert Join([role, session], '/') == role + "/" + session;
    SplitJoin([role, session], '/');
  }

  /**
   Lines 187-192: `strings.Split` on "/" with at least two pieces gives the
   type (the first piece) and the ID (the others joined back).
   */
  function SplitResource(resource: string): (r: Option<ResourceParts>)
    ensures r.None? <==> '/' !in resource
    ensures r.Some? ==> resource == r.value.resourceType + "/" + r.value.resourceId && '/' !in r.value.resourceType
  {
    var parts := Split(resource, '/');
    SplitHead(resource, '/');
    if |parts| < 2 then None
    else Some(ResourceParts(parts[0], Join(parts[1..], '/')))
  }

  /** The type and ID that make up a resource come back out of it, whatever "/" the ID holds. */
  lemma SplitResourceRoundTrip(resourceType: string, resourceId: string)
    requires '/' !in resourceType
    ensures SplitResource(resourceType + "/" + resourceId) == Some(ResourceParts(resourceType, resourceId))
  {
    CutUnique(resourceType + "/" + resourceId, '/', resourceType, resourceId);
  }

  /** What `getAWSIdentity` does to the model and returns (lines 160-201). */
  function AwsIdentity(data: Model, sts: string -> StsOutcome, parseArn: string -> ArnParse): (a: Attempt)
    // only the five identity fields are ever written
    ensures a.data.id == data.id && a.data.cloudProvider == data.cloudProvider && a.data.region == data.region
    ensures a.err.None? <==>
      && sts(data.region.GetOr("")).Answered?
      && parseArn(sts(data.region.GetOr("")).arn).ArnParsed?
      && '/' in parseArn(sts(data.region.GetOr("")).arn).arn.resource
    // lines 162-174: nothing is written before STS answers
    ensures sts(data.region.GetOr("")).ConfigFailed? ==>
      a == Attempt(data, Some("unable to load AWS configuration: " + sts(data.region.GetOr("")).reason))
    ensures sts(data.region.GetOr("")).CallFailed? ==>
      a == Attempt(data, Some("unable to get AWS identity: " + sts(data.region.GetOr("")).reason))
    // lines 177-178: account and ARN are written as soon as STS answers
    ensures sts(data.region.GetOr("")).Answered? ==>
      var answer := sts(data.region.GetOr(""));
      && a.data.accountId == Some(answer.account)
      && a.data.resourceId == Some(answer.arn)
      && (parseArn(answer.arn).ArnRejected? ==>
            && a.err == Some("unable to parse ARN: " + parseArn(answer.arn).reason)
            && a.data == data.(accountId := Some(answer.account), resourceId := Some(answer.arn)))
      && (parseArn(answer.arn).ArnParsed? && '/' !in parseArn(answer.arn).arn.resource ==>
            && a.err == Some("invalid resource format in ARN: " + parseArn(answer.arn).arn.resource)
            && a.data == data.(accountId := Some(answer.account), resourceId := Some(answer.arn)))
    // lines 195-198
    ensures a.err.None? ==>
      var parsed := parseArn(sts(data.region.GetOr("")).arn).arn;
      var parts := SplitResource(parsed.resource).value;
      Caller(a.data.callerType.GetOr(""), a.data.callerName.GetOr(""), a.data.sessionName.GetOr(""))
        == DetermineCallerInfo(parsed.service, parts.resourceType, parts.resourceId)
      && a.data.callerType.Some? && a.data.callerName.Some? && a.data.sessionName.Some?
  {
    match sts(data.region.GetOr(""))
    case ConfigFailed(reason) => Attempt(data, Some("unable to load AWS configuration: " + reason))
    case CallFailed(reason) => Attempt(data, Some("unable to get AWS identity: " + reason))
    case Answered(account, arn) =>
      var data := data.(accountId := Some(account), resourceId := Some(arn));
      match parseArn(arn)
      case ArnRejected(reason) => Attempt(data, Some("unable to parse ARN: " + reason))
      case ArnParsed(parsed) =>
        match SplitResource(parsed.resource)
        case None => Attempt(data, Some("invalid resource format in ARN: " + parsed.resource))
        case Some(parts) =>
          var caller := DetermineCallerInfo(parsed.service, parts.resourceType, parts.resourceId);
          Attempt(data.(callerType := Some(caller.callerType), callerName := Some(caller.callerName),
                        sessionName := Some(caller.sessionName)), None)
  }

  /** `getAWSIdentity`: the model is updated field by field and returned with the error. */
  method GetAwsIdentity(data: Model, sts: string -> StsOutcome, parseArn: string -> ArnParse)
    returns (updated: Model, err: Option<string>)
    ensures Attempt(updated, err) == AwsIdentity(data, sts, parseArn)
  {
    updated := data;
    var identity := sts(updated.region.GetOr(""));
    if identity.ConfigFailed? {
      return updated, Some("unable to load AWS configuration: " + identity.reason);
    }
    if identity.CallFailed? {
      return updated, Some("unable to get AWS identity: " + identity.reason);
    }

    updated := updated.(accountId := Some(identity.account));
    updated := updated.(resourceId := Some(identity.arn));

    var parsedArn := parseArn(identity.arn);
    if parsedArn.ArnRejected? {
      return updated, Some("unable to parse ARN: " + parsedArn.reason);
    }

    var resourceParts := Split(parsedArn.arn.resource, '/');
    SplitHead(parsedArn.arn.resource, '/');
    if |resourceParts| < 2 {
      return updated, Some("invalid resource format in ARN: " + parsedArn.arn.resource);
    }
    var resourceType := resourceParts[0];
    var resourceID := Join(resourceParts[1..], '/');

    var caller := DetermineCallerInfo(parsedArn.arn.service, resourceType, resourceID);
    updated := updated.(callerType := Some(caller.callerType));
    updated := updated.(callerName := Some(caller.callerName));
    updated := updated.(sessionName := Some(caller.sessionName));
    return updated, None;
  }

  /** The five identity fields set to "unknown", the others kept. */
  function Unknowns(data: Model): (d: Model)
    ensures d.accountId == d.resourceId == d.callerName == d.callerType == d.sessionName == Some(Unknown)
    ensures d.id == data.id && d.cloudProvider == data.cloudProvider && d.region == data.region
  {
    data.(accountId := Some(Unknown), resourceId := Some(Unknown), callerName := Some(Unknown),
          callerType := Some(Unknown), sessionName := Some(Unknown))
  }

  /** Lines 109-136: what the switch on the provider leaves, for any provider name. */
  function IdentifySpec(data: Model, provider: string, sts: string -> StsOutcome, parseArn: string -> ArnParse)
    : (r: Identified)
    ensures |r.warnings| <= 1 && forall i :: 0 <= i < |r.warnings| ==> r.warnings[i].severity == Warning
    ensures r.data.id == data.id && r.data.cloudProvider == data.cloudProvider && r.data.region == data.region
    // lines 110-120: a failed AWS lookup is a warning and leaves every identity field unknown
    ensures provider == "aws" ==>
      var a := AwsIdentity(data, sts, parseArn);
      && (a.err.Some? ==> r == Identified(Unknowns(data), [Diagnostic(Warning, "Failed to get AWS identity", a.err.value)]))
      && (a.err.None? ==> r == Identified(a.data, []))
    // lines 121-127
    ensures provider == "" ==> r == Identified(Unknowns(data), [])
    // lines 128-135
    ensures provider != "aws" && provider != "" ==>
      r == Identified(Unknowns(data), [Diagnostic(Warning, "Unsupported provider", "Provider " + provider + " is not supported")])
  {
    if provider == "aws" then
      var a := AwsIdentity(data, sts, parseArn);
      if a.err.Some? then Identified(Unknowns(a.data), [Diagnostic(Warning, "Failed to get AWS identity", a.err.value)])
      else Identified(a.data, [])
    else if provider == "" then Identified(Unknowns(data), [])
    else Identified(Unknowns(data), [Diagnostic(Warning, "Unsupported provider", "Provider " + provider + " is not supported")])
  }

  /** Lines 109-136: the switch on the provider, field by field. */
  method Identify(data: Model, provider: string, sts: string -> StsOutcome, parseArn: string -> ArnParse)
    returns (updated: Model, warnings: seq<Diagnostic>)
    ensures Identified(updated, warnings) == IdentifySpec(data, provider, sts, parseArn)
  {
    updated, warnings := data, [];
    if provider == "aws" {
      var err;
      updated, err := GetAwsIdentity(updated, sts, parseArn);
      if err.Some? {
        warnings := warnings + [Diagnostic(Warning, "Failed to get AWS identity", err.value)];
        updated := Unknowns(updated);
      }
    } else if provider == "" {
      updated := Unknowns(updated);
    } else {
      warnings := warnings + [Diagnostic(Warning, "Unsupported provider", "Provider " + provider + " is not supported")];
      updated := Unknowns(updated);
    }
  }

  /** What `Read` produces, as a function of the configuration, the environment and AWS. */
  function ReadSpec(config: Model, getenv: string -> string, sts: string -> StsOutcome, parseArn: string -> ArnParse)
    : (resp: Response<Model>)
    // line 142: the state is always saved, and nothing is ever an error
    ensures resp.state.Some? && !HasError(resp.diagnostics)
    ensures var d := DetectProviderAndEnvironment(getenv);
      && resp.state.value.cloudProvider == Some(d.provider)
      && resp.state.value.region == Some(d.region)
      // line 139
      && resp.state.value.id == Some(d.provider + "-" + resp.state.value.accountId.GetOr(""))
    // no AWS credentials: no warning, everything unknown
    ensures getenv("AWS_ACCESS_KEY_ID") == "" ==>
      && resp.diagnostics == []
      && resp.state.value == Unknowns(config.(cloudProvider := Some(""), region := Some(""))).(id := Some("-unknown"))
    // AWS: the lookup's result, or one warning and everything unknown
    ensures getenv("AWS_ACCESS_KEY_ID") != "" ==>
      var data := config.(cloudProvider := Some("aws"), region := Some(DetectProviderAndEnvironment(getenv).region));
      var a := AwsIdentity(data, sts, parseArn);
      && (a.err.Some? ==>
            && resp.diagnostics == [Diagnostic(Warning, "Failed to get AWS identity", a.err.value)]
            && resp.state.value == Unknowns(data).(id := Some("aws-unknown")))
      && (a.err.None? ==>
            && resp.diagnostics == []
            && resp.state.value == a.data.(id := Some("aws" + "-" + a.data.accountId.value)))
  {
    var d := DetectProviderAndEnvironment(getenv);
    var data := config.(cloudProvider := Some(d.provider), region := Some(d.region));
    var r := IdentifySpec(data, d.provider, sts, parseArn);
    var id := d.provider + "-" + r.data.accountId.GetOr("");
    assert d.provider == "" ==> id == "-unknown" && r.data == Unknowns(data);
    if d.provider == "aws" then
      var a := AwsIdentity(data, sts, parseArn);
      assert a.err.None? ==> a.data.accountId.Some? && r.data == a.data;
      assert a.err.Some? ==> r.data == Unknowns(data) && id == "aws-unknown";
      Response(r.warnings, Some(r.data.(id := Some(id))))
    else
      Response(r.warnings, Some(r.data.(id := Some(id))))
  }

  /** `Read`: detect, record provider and region, identify, then the ID. */
  method Read(config: Model, getenv: string -> string, sts: string -> StsOutcome, parseArn: string -> ArnParse)
    returns (resp: Response<Model>)
    ensures resp == ReadSpec(config, getenv, sts, parseArn)
  {
    resp := Empty();
    var data := config;

    var detected := DetectProviderAndEnvironment(getenv);
    var provider, region := detected.provider, detected.region;

    data := data.(cloudProvider := Some(provider));
    data := data.(region := Some(region));

    var warnings;
    data, warnings := Identify(data, provider, sts, parseArn);
    resp := resp.(diagnostics := resp.diagnostics + warnings);

    data := data.(id := Some(provider + "-" + data.accountId.GetOr("")));

    resp := resp.SetState(data);
  }

  /** Without AWS credentials in the environment, STS is never consulted. */
  lemma NoCredentialsNoLookup(config: Model, getenv: string -> string, sts1: string -> StsOutcome,
                              sts2: string -> StsOutcome, parseArn: string -> ArnParse)
    requires getenv("AWS_ACCESS_KEY_ID") == ""
    ensures ReadSpec(config, getenv, sts1, parseArn) == ReadSpec(config, getenv, sts2, parseArn)
  {
  }
}
