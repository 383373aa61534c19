/**
 internal/provider/data_source_tfstate.go: the `terrapwner_tfstate` data
 source runs `terraform show -json`, decodes the state and reports the
 distinct resource types, provider prefixes and module addresses, the number
 of resources and which outputs are sensitive.

 Go maps used as sets become Dafny sets; iterating them visits the keys in an
 unspecified order, so the lists Read saves are characterised by their
 elements, not by their order. JSON decoding is an input: for each text, the
 decoded state or the decoder's error.
 */
module Tfstate {
  import opened Framework
  import opened Strings
  import opened Exec

  /** Line 180: the command and its timeout, in seconds. */
  const ShowCommand := "terraform"
  const ShowArgs := ["show", "-json"]
  const ShowTimeout := 30

  /** `TerrapwnerTfstateDataSourceModel`. */
  datatype Model = Model(
    success: Option<bool>,
    rawJson: Option<string>,
    resourceTypes: Option<seq<string>>,
    resourceCount: Option<int>,
    providers: Option<seq<string>>,
    modules: Option<seq<string>>,
    sensitiveOutputs: Option<map<string, bool>>)

  /** The parts of the decoded state the data source reads (lines 44-58). */
  datatype Resource = Resource(resourceType: string)
  datatype ChildModule = ChildModule(address: string)
  datatype Output = Output(sensitive: bool)
  datatype State = State(resources: seq<Resource>, childModules: seq<ChildModule>, outputs: map<string, Output>)

  /** What `json.Unmarshal` made of a text. */
  datatype Decoded = Decoded(state: State) | DecodeFailed(reason: string)

  /**
   Line 120: the provider prefix of a resource type, the first piece of
   `strings.SplitN(t, "_", 2)`: all of `t` up to its first "_".
   */
  function ProviderOf(resourceType: string): (p: string)
    ensures '_' !in p
    ensures |p| <= |resourceType| && resourceType[..|p|] == p
    ensures |p| < |resourceType| ==> resourceType[|p|] == '_'
    ensures '_' !in resourceType ==> p == resourceType
  {
    var h := Cut(resourceType, '_');
    assert h.found ==> resourceType[..|h.before|] == h.before && resourceType[|h.before|] == '_' by {
      if h.found {
        assert resourceType == h.before + ['_'] + h.after;
      }
    }
    h.before
  }

  /** The distinct resource types. */
  function TypesOf(resources: seq<Resource>): set<string> {
    if |resources| == 0 then {}
    else TypesOf(resources[..|resources| - 1]) + {resources[|resources| - 1].resourceType}
  }

  /** The distinct provider prefixes. */
  function ProvidersOf(resources: seq<Resource>): set<string> {
    if |resources| == 0 then {}
    else ProvidersOf(resources[..|resources| - 1]) + {ProviderOf(resources[|resources| - 1].resourceType)}
  }

  /** The root module "" and every child module's address. */
  function ModulesOf(children: seq<ChildModule>): set<string> {
    if |children| == 0 then {""}
    else ModulesOf(children[..|children| - 1]) + {children[|children| - 1].address}
  }

  /** The names of the sensitive outputs. */
  function SensitiveNames(outputs: map<string, Output>): (names: set<string>)
    ensures forall n :: n in names <==> n in outputs && outputs[n].sensitive
  {
    set n | n in outputs && outputs[n].sensitive
  }

  /** A type is collected exactly when some resource has it. */
  lemma {:induction false} TypesOfMembers(resources: seq<Resource>, t: string)
    ensures t in TypesOf(resources) <==> exists i :: 0 <= i < |resources| && resources[i].resourceType == t
  {
    if |resources| > 0 {
      var n := |resources| - 1;
      var prefix := resources[..n];
      TypesOfMembers(prefix, t);
      var inPrefix := exists i :: 0 <= i < n && prefix[i].resourceType == t;
      var inWhole := exists i :: 0 <= i < |resources| && resources[i].resourceType == t;
      assert inWhole <==> inPrefix || resources[n].resourceType == t by {
        if inWhole {
          var i :| 0 <= i < |resources| && resources[i].resourceType == t;
          if i < n {
            assert prefix[i] == resources[i];
          }
        }
        if inPrefix {
          var i :| 0 <= i < n && prefix[i].resourceType == t;
          assert prefix[i] == resources[i];
        }
      }
    }
  }

  /** The provider prefixes are exactly the prefixes of the collected types. */
  lemma {:induction false} ProvidersOfTypes(resources: seq<Resource>, p: string)
    ensures p in ProvidersOf(resources) <==> exists t :: t in TypesOf(resources) && ProviderOf(t) == p
  {
    if |resources| > 0 {
      var prefix := resources[..|resources| - 1];
      var last := resources[|resources| - 1].resourceType;
      ProvidersOfTypes(prefix, p);
      if p in ProvidersOf(resources) && p != ProviderOf(last) {
        var t :| t in TypesOf(prefix) && ProviderOf(t) == p;
        assert t in TypesOf(resources);
      }
      if p in ProvidersOf(resources) && p == ProviderOf(last) {
        assert last in TypesOf(resources);
      }
    }
  }

  /** A module name is reported exactly when it is the root's "" or some child's address. */
  lemma {:induction false} ModulesOfMembers(children: seq<ChildModule>, m: string)
    ensures m in ModulesOf(children) <==> m == "" || exists i :: 0 <= i < |children| && children[i].address == m
  {
    if |children| > 0 {
      var n := |children| - 1;
      var prefix := children[..n];
      ModulesOfMembers(prefix, m);
      var inPrefix := exists i :: 0 <= i < n && prefix[i].address == m;
      var inWhole := exists i :: 0 <= i < |children| && children[i].address == m;
      assert inWhole <==> inPrefix || children[n].address == m by {
        if inWhole {
          var i :| 0 <= i < |children| && children[i].address == m;
          if i < n {
            assert prefix[i] == children[i];
          }
        }
        if inPrefix {
          var i :| 0 <= i < n && prefix[i].address == m;
          assert prefix[i] == children[i];
        }
      }
    }
  }

  /** There are never more distinct types than resources. */
  lemma {:induction false} TypesBound(resources: seq<Resource>)
    ensures |TypesOf(resources)| <= |resources|
  {
    if |resources| > 0 {
      TypesBound(resources[..|resources| - 1]);
    }
  }

  /** There are never more provider prefixes than distinct types. */
  lemma {:induction false} ProvidersBound(resources: seq<Resource>)
    ensures |ProvidersOf(resources)| <= |TypesOf(resources)|
  {
    if |resources| > 0 {
      var prefix := resources[..|resources| - 1];
      var t := resources[|resources| - 1].resourceType;
      ProvidersBound(prefix);
      if t in TypesOf(prefix) {
        ProvidersOfTypes(prefix, ProviderOf(t));
        assert TypesOf(resources) == TypesOf(prefix);
        assert ProvidersOf(resources) == ProvidersOf(prefix);
      } else {
        assert TypesOf(resources) == TypesOf(prefix) + {t};
        assert |TypesOf(resources)| == |TypesOf(prefix)| + 1;
        assert ProvidersOf(resources) == ProvidersOf(prefix) + {ProviderOf(t)};
        assert |ProvidersOf(resources)| <= |ProvidersOf(prefix)| + 1;
      }
    }
  }

  /** Lines 112-126: one pass over the resources, collecting types and provider prefixes. */
  method ExtractResourceInfo(resources: seq<Resource>) returns (resourceTypes: set<string>, providers: set<string>)
    ensures resourceTypes == TypesOf(resources)
    ensures providers == ProvidersOf(resources)
  {
    resourceTypes, providers := {}, {};
    for i := 0 to |resources|
      invariant resourceTypes == TypesOf(resources[..i])
      invariant providers == ProvidersOf(resources[..i])
    {
      assert resources[..i + 1][..i] == resources[..i];
      resourceTypes := resourceTypes + {resources[i].resourceType};
      providers := providers + {ProviderOf(resources[i].resourceType)};
    }
    assert resources[..|resources|] == resources;
  }

  /** Lines 129-145: the root module and every child module's address. */
  method ExtractModuleNames(children: seq<ChildModule>) returns (modules: set<string>)
    ensures modules == ModulesOf(children)
  {
    modules := {""};
    for i := 0 to |children|
      invariant modules == ModulesOf(children[..i])
    {
      assert children[..i + 1][..i] == children[..i];
      modules := modules + {children[i].address};
    }
    assert children[..|children|] == children;
  }

  /** Lines 148-158: the sensitive outputs, each marked true; the others are absent. */
  method ExtractSensitiveOutputs(outputs: map<string, Output>) returns (sensitive: map<string, bool>)
    ensures sensitive.Keys == SensitiveNames(outputs)
    ensures forall n :: n in sensitive ==> sensitive[n]
  {
    sensitive := map[];
    var pending := outputs.Keys;
    while pending != {}
      invariant pending <= outputs.Keys
      invariant sensitive.Keys == SensitiveNames(outputs) - pending
      invariant forall n :: n in sensitive ==> sensitive[n]
      decreases pending
    {
      var name :| name in pending;
      if outputs[name].sensitive {
        sensitive := sensitive[name := true];
      }
      pending := pending - {name};
    }
  }

  /** `xs` lists the elements of `s`, each exactly once, in some order. */
  ghost predicate Enumerates<T(!new)>(xs: seq<T>, s: set<T>) {
    && (forall x :: x in xs <==> x in s)
    && (forall i, j :: 0 <= i < j < |xs| ==> xs[i] != xs[j])
  }

  /** Lines 161-167: the keys of a set-like map, in iteration order. */
  method MapToSlice<T(!new)>(m: set<T>) returns (result: seq<T>)
    ensures Enumerates(result, m)
    ensures |result| == |m|
  {
    result := [];
    var pending := m;
    while pending != {}
      invariant pending <= m
      invariant forall x :: x in result <==> x in m - pending
      invariant forall i, j :: 0 <= i < j < |result| ==> result[i] != result[j]
      invariant |result| + |pending| == |m|
      decreases pending
    {
      var k :| k in pending;
      result := result + [k];
      pending := pending - {k};
    }
  }

  /** What `Read` saves, up to the order of the three lists. */
  ghost predicate Reports(data: Model, stdout: string, st: State) {
    && data.success == Some(true)
    && data.rawJson == Some(stdout)
    && data.resourceCount == Some(|st.resources|)
    && data.resourceTypes.Some? && Enumerates(data.resourceTypes.value, TypesOf(st.resources))
    && data.providers.Some? && Enumerates(data.providers.value, ProvidersOf(st.resources))
    && data.modules.Some? && Enumerates(data.modules.value, ModulesOf(st.childModules))
    && data.sensitiveOutputs.Some? && data.sensitiveOutputs.value.Keys == SensitiveNames(st.outputs)
    && (forall n :: n in data.sensitiveOutputs.value ==> data.sensitiveOutputs.value[n])
  }

  /**
   `Read`: run `terraform show -json`, decode its output and report. A
   non-zero exit code is not looked at: only `Execute`'s error and the
   decoder's are.
   */
  method Read(config: Model, world: Invocation -> ProcessOutcome, decode: string -> Decoded)
    returns (resp: Response<Model>)
    ensures resp.state.Some? <==> !HasError(resp.diagnostics)
    // lines 180-187
    ensures Classify(world(Invocation(ShowCommand, ShowArgs, ShowTimeout))).Failed? ==>
      resp == Response([Diagnostic(Error, "Failed to read state",
                                   Classify(world(Invocation(ShowCommand, ShowArgs, ShowTimeout))).error)], None)
    // lines 190-197
    ensures Classify(world(Invocation(ShowCommand, ShowArgs, ShowTimeout))).Completed? ==>
      var stdout := Classify(world(Invocation(ShowCommand, ShowArgs, ShowTimeout))).result.stdout;
      && (decode(stdout).DecodeFailed? ==>
            resp == Response([Diagnostic(Error, "Failed to parse state JSON", decode(stdout).reason)], None))
      // lines 200-244
      && (decode(stdout).Decoded? ==>
            && resp.diagnostics == []
            && resp.state.Some?
            && Reports(resp.state.value, stdout, decode(stdout).state))
  {
    resp := Empty();
    var data := config;

    var result, err := Execute(world, ShowCommand, ShowArgs, ShowTimeout);
    if err.Some? {
      resp := resp.AddError("Failed to read state", err.value);
      return;
    }

    var decoded := decode(result.value.stdout);
    if decoded.DecodeFailed? {
      resp := resp.AddError("Failed to parse state JSON", decoded.reason);
      return;
    }
    var st := decoded.state;

    var resourceTypes, providers := ExtractResourceInfo(st.resources);
    var modules := ExtractModuleNames(st.childModules);
    var sensitiveOutputs := ExtractSensitiveOutputs(st.outputs);

    var uniqueTypes := MapToSlice(resourceTypes);
    var uniqueProviders := MapToSlice(providers);
    var uniqueModules := MapToSlice(modules);

    data := data.(success := Some(true));
    data := data.(rawJson := Some(result.value.stdout));
    data := data.(resourceCount := Some(|st.resources|));
    data := data.(resourceTypes := Some(uniqueTypes));
    data := data.(providers := Some(uniqueProviders));
    data := data.(modules := Some(uniqueModules));
    data := data.(sensitiveOutputs := Some(sensitiveOutputs));

    resp := resp.SetState(data);
  }

  /** The reported lists are never longer than the resource list. */
  lemma ReportBounds(data: Model, stdout: string, st: State)
    requires Reports(data, stdout, st)
    ensures |data.providers.value| <= |data.resourceTypes.value| <= data.resourceCount.value
    ensures "" in data.modules.value
  {
    TypesBound(st.resources);
    ProvidersBound(st.resources);
    ModulesOfMembers(st.childModules, "");
    EnumeratesSize(data.resourceTypes.value, TypesOf(st.resources));
    EnumeratesSize(data.providers.value, ProvidersOf(st.resources));
  }

  /** A list enumerating a set has as many elements as the set. */
  lemma {:induction false} EnumeratesSize<T(!new)>(xs: seq<T>, s: set<T>)
    requires Enumerates(xs, s)
    ensures |xs| == |s|
  {
    if |xs| > 0 {
      var last := xs[|xs| - 1];
      var init := xs[..|xs| - 1];
      assert last !in init;
      forall x ensures x in init <==> x in s - {last} {
        if x in init {
          var i :| 0 <= i < |init| && init[i] == x;
          assert xs[i] == x;
        }
        if x in s - {last} {
          var i :| 0 <= i < |xs| && xs[i] == x;
          assert init[i] == x;
        }
      }
      EnumeratesSize(init, s - {last});
    }
  }
}
