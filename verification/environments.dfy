/** The Octopus Deploy environment generator: after the client is built, the
    resource functions of its `funcs` list run in order; the only one lists the
    environments and appends one descriptor per environment. */
module OctopusEnvironments {
  import opened Discovery

  const EnvironmentKind: string := "octopusdeploy_environment"

  /** Octopus descriptors allow no attribute to be empty. */
  const AllowEmptyValues: seq<string> := []

  /** The answers during one run: the error building the client, if any, and the
      answer of `Environment.GetAll`, each environment given by its `ID` and `Name`. */
  datatype EnvironmentApi = EnvironmentApi(client: Option<Error>, environments: Listing<IdName>)

  /** The resource functions a `funcs` list can hold. */
  datatype ResourceFunc = EnvironmentResources

  /** The `funcs` list of `InitResources`, in the order it calls them. */
  const Funcs: seq<ResourceFunc> := [EnvironmentResources]

  /** What one resource function appends, or the error it returns. */
  function FuncResult(f: ResourceFunc, api: EnvironmentApi, providerName: string): Listing<Descriptor>
  {
    match f
    case EnvironmentResources =>
      DescribeListing(api.environments, EnvironmentKind, providerName, AllowEmptyValues)
  }

  /** The results of the functions of `Funcs`, in order. */
  function FuncResults(api: EnvironmentApi, providerName: string): seq<Listing<Descriptor>>
  {
    seq(|Funcs|, k requires 0 <= k < |Funcs| => FuncResult(Funcs[k], api, providerName))
  }

  /** What `InitResources` appends and returns, given the answers and the generator's provider name. */
  function EnvironmentRun(api: EnvironmentApi, providerName: string): Run
  {
    if api.client.Some? then Run([], Fail(api.client.value))
    else FailFast(FuncResults(api, providerName))
  }

  class EnvironmentGenerator {
    var Resources: seq<Descriptor>
    const ProviderName: string

    constructor (providerName: string)
      ensures Resources == [] && ProviderName == providerName
    {
      Resources := [];
      ProviderName := providerName;
    }

    /** Builds the client, then calls each function of `Funcs` in order and
        returns the first error. */
    method InitResources(api: EnvironmentApi) returns (err: Outcome)
      modifies this
      ensures Resources == old(Resources) + EnvironmentRun(api, ProviderName).added
      ensures err == EnvironmentRun(api, ProviderName).outcome
    {
      if api.client.Some? {
        return Fail(api.client.value);
      }
      ghost var results := FuncResults(api, ProviderName);
      for i := 0 to |Funcs|
        invariant Resources == old(Resources) + FailFast(results[..i]).added
        invariant FailFast(results[..i]).outcome == Nil
      {
        ghost var before := Resources;
        match Funcs[i]
        case EnvironmentResources =>
          err := CreateEnvironmentResources(api.environments);
        FailFastExtend(results, i, old(Resources), before, Resources);
        if err.Fail? {
          FailFastStaysFailed(results, i + 1);
          return;
        }
      }
      assert results[..|Funcs|] == results;
      return Nil;
    }

    /** Lists the environments and appends one descriptor per environment, in
        listing order; a failing `GetAll` appends nothing. */
    method CreateEnvironmentResources(environments: Listing<IdName>) returns (err: Outcome)
      modifies this
      ensures Resources == old(Resources) + Items(DescribeListing(environments, EnvironmentKind, ProviderName, AllowEmptyValues))
      ensures err == if environments.Err? then Fail(environments.err) else Nil
    {
      if environments.Err? {
        return Fail(environments.err);
      }
      var items := environments.items;
      for j := 0 to |items|
        invariant Resources == old(Resources) + Describe(items[..j], EnvironmentKind, ProviderName, AllowEmptyValues)
      {
        assert items[..j + 1][..j] == items[..j];
        Resources := Resources + [Descriptor(items[j].id, items[j].name, EnvironmentKind, ProviderName, AllowEmptyValues)];
      }
      assert items[..|items|] == items;
      return Nil;
    }
  }

  /** A client that cannot be built: its error is returned and no resource function runs. */
  lemma ClientFailure(api: EnvironmentApi, providerName: string, e: Error)
    requires api.client == Some(e)
    ensures EnvironmentRun(api, providerName) == Run([], Fail(e))
  {
  }

  /** A failing `GetAll`: its error is returned unchanged and nothing is appended. */
  lemma GetAllFailure(api: EnvironmentApi, providerName: string, e: Error)
    requires api.client.None? && api.environments == Err(e)
    ensures EnvironmentRun(api, providerName) == Run([], Fail(e))
  {
    FailFastFirstError(FuncResults(api, providerName), 0, e);
  }

  /** A successful `GetAll`: nil is returned, and exactly one descriptor is appended
      per environment, in listing order, carrying its `ID` and `Name`, the
      environment kind, the generator's provider name and no allow-empty values;
      an empty listing appends nothing. */
  lemma GetAllSuccess(api: EnvironmentApi, providerName: string, items: seq<IdName>)
    requires api.client.None? && api.environments == Ok(items)
    ensures EnvironmentRun(api, providerName).outcome == Nil
    ensures |EnvironmentRun(api, providerName).added| == |items|
    ensures forall k :: 0 <= k < |items| ==>
      EnvironmentRun(api, providerName).added[k]
        == Descriptor(items[k].id, items[k].name, EnvironmentKind, providerName, [])
    ensures EnvironmentRun(api, providerName).added == [] <==> items == []
  {
    var results := FuncResults(api, providerName);
    FailFastAllOk(results);
    assert Flatten(results) == Items(results[0]) + Flatten(results[1..]);
  }

  /** The run succeeds exactly when the client is built and `GetAll` succeeds, and
      every descriptor it appends is an environment descriptor of this provider. */
  lemma RunOutcome(api: EnvironmentApi, providerName: string)
    ensures EnvironmentRun(api, providerName).outcome == Nil <==> api.client.None? && api.environments.Ok?
    ensures forall d :: d in EnvironmentRun(api, providerName).added ==>
      d.kind == EnvironmentKind && d.provider == providerName && d.allowEmpty == []
  {
    if api.client.None? {
      match api.environments
      case Ok(items) => GetAllSuccess(api, providerName, items);
      case Err(e) => GetAllFailure(api, providerName, e);
    }
  }
}
