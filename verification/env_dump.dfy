/**
 internal/provider/data_source_env_dump.go: the `terrapwner_env_dump` data
 source turns the process environment (`os.Environ()`, a list of `KEY=VALUE`
 strings, given here as `environ`) into a map, and by default replaces every
 value with "<REDACTED>".
 */
module EnvDump {
  import opened Framework
  import opened Strings

  const Redacted := "<REDACTED>"

  /** Line 106. */
  const DataSourceId := "env_dump"

  /** `TerrapwnerEnvDumpDataSourceModel`. */
  datatype Model = Model(vars: Option<map<string, string>>, id: Option<string>, maskValues: Option<bool>)

  /** An entry that `strings.Cut(env, "=")` accepts. */
  predicate WellFormed(entry: string) {
    '=' in entry
  }

  /** Line 83: the key is what precedes the first "=". */
  function Key(entry: string): string {
    Cut(entry, '=').before
  }

  /** Line 83: the value is everything after the first "=", further "=" included. */
  function Value(entry: string): string {
    Cut(entry, '=').after
  }

  /** Lines 80-88: the map built by inserting every well-formed entry in order. */
  function Parse(environ: seq<string>): (vars: map<string, string>)
    ensures forall k :: k in vars ==> '=' !in k
    ensures |vars.Keys| <= |environ|
  {
    if |environ| == 0 then map[]
    else
      var entry := environ[|environ| - 1];
      var earlier := Parse(environ[..|environ| - 1]);
      if WellFormed(entry) then
        assert earlier[Key(entry) := Value(entry)].Keys == earlier.Keys + {Key(entry)};
        earlier[Key(entry) := Value(entry)]
      else earlier
  }

  /** Entry `entry` is well formed and names key `k`. */
  predicate Carries(entry: string, k: string) {
    WellFormed(entry) && Key(entry) == k
  }

  /** One step of `Parse`: the last entry adds its key, if it has one. */
  lemma ParseStep(environ: seq<string>, k: string)
    requires |environ| > 0
    ensures k in Parse(environ) <==> k in Parse(environ[..|environ| - 1]) || Carries(environ[|environ| - 1], k)
  {
  }

  /** A last entry that does not carry `k` leaves `k`'s value as it was. */
  lemma ParseKeep(environ: seq<string>, k: string)
    requires |environ| > 0 && !Carries(environ[|environ| - 1], k)
    requires k in Parse(environ[..|environ| - 1])
    ensures k in Parse(environ) && Parse(environ)[k] == Parse(environ[..|environ| - 1])[k]
  {
  }

  /** Some well-formed entry of `environ` names key `k`. */
  ghost predicate Mentions(environ: seq<string>, k: string) {
    exists i :: 0 <= i < |environ| && Carries(environ[i], k)
  }

  /** An entry list mentions a key when its prefix does or its last entry carries it. */
  lemma MentionsStep(environ: seq<string>, k: string)
    requires |environ| > 0
    ensures Mentions(environ, k) <==> Mentions(environ[..|environ| - 1], k) || Carries(environ[|environ| - 1], k)
  {
    var n := |environ| - 1;
    var prefix := environ[..n];
    forall i | 0 <= i < n ensures prefix[i] == environ[i] {}
  }

  /** A key is present exactly when some well-formed entry carries it. */
  lemma {:induction false} ParseKeys(environ: seq<string>, k: string)
    ensures k in Parse(environ) <==> Mentions(environ, k)
  {
    if |environ| > 0 {
      ParseKeys(environ[..|environ| - 1], k);
      ParseStep(environ, k);
      MentionsStep(environ, k);
    }
  }

  /**
   When a key repeats, the last well-formed entry carrying it wins: the value
   stored for `environ[i]`'s key is `environ[i]`'s value when no later entry
   has the same key.
   */
  lemma {:induction false} ParseLastWins(environ: seq<string>, i: nat)
    requires i < |environ| && WellFormed(environ[i])
    requires forall j :: i < j < |environ| && WellFormed(environ[j]) ==> Key(environ[j]) != Key(environ[i])
    ensures Key(environ[i]) in Parse(environ) && Parse(environ)[Key(environ[i])] == Value(environ[i])
  {
    var n := |environ| - 1;
    if i < n {
      assert environ[..n][i] == environ[i];
      forall j | i < j < |environ[..n]| && WellFormed(environ[..n][j])
        ensures Key(environ[..n][j]) != Key(environ[..n][i])
      {
        assert environ[..n][j] == environ[j];
      }
      ParseLastWins(environ[..n], i);
      ParseKeep(environ, Key(environ[i]));
    }
  }

  /** Lines 91-95: every value replaced, every key kept. */
  function Mask(vars: map<string, string>): (masked: map<string, string>)
    ensures masked.Keys == vars.Keys
    ensures forall k :: k in masked ==> masked[k] == Redacted
  {
    map k | k in vars :: Redacted
  }

  /** The `vars` attribute Read saves for a given environment and `mask_values`. */
  function Vars(environ: seq<string>, mask: bool): map<string, string> {
    if mask then Mask(Parse(environ)) else Parse(environ)
  }

  /** `Read`: default, parsing loop, masking loop, then the state. */
  method Read(config: Model, environ: seq<string>) returns (resp: Response<Model>)
    ensures resp.diagnostics == []
    ensures resp.state.Some?
    ensures resp.state.value.maskValues == Some(config.maskValues.GetOr(true))
    ensures resp.state.value.id == Some(DataSourceId)
    ensures resp.state.value.vars == Some(Vars(environ, config.maskValues.GetOr(true)))
  {
    resp := Empty();
    var data := config;

    if data.maskValues.None? {
      data := data.(maskValues := Some(true));
    }

    var envVars: map<string, string> := map[];
    for i := 0 to |environ|
      invariant envVars == Parse(environ[..i])
    {
      assert environ[..i + 1][..i] == environ[..i];
      var env := environ[i];
      var cut := Cut(env, '=');
      if !cut.found {
        continue;
      }
      envVars := envVars[cut.before := cut.after];
    }
    assert environ[..|environ|] == environ;

    if data.maskValues.value {
      ghost var parsed := envVars;
      var pending := envVars.Keys;
      while pending != {}
        invariant pending <= envVars.Keys && envVars.Keys == parsed.Keys
        invariant forall k :: k in envVars ==> envVars[k] == if k in pending then parsed[k] else Redacted
        decreases pending
      {
        var k :| k in pending;
        envVars := envVars[k := Redacted];
        pending := pending - {k};
      }
      assert envVars == Mask(parsed);
    }

    data := data.(vars := Some(envVars));
    data := data.(id := Some(DataSourceId));

    resp := resp.SetState(data);
  }
}
