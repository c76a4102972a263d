/** The Octopus Deploy tag-set generator: after the client is built, the
    resource functions of its `funcs` list run in order; the only one lists the
    tag sets and appends one descriptor per tag set. */
module OctopusTagSets {
  import opened Discovery

  const TagSetKind: string := "octopusdeploy_tag_set"

  /** Octopus descriptors allow no attribute to be empty. */
  const AllowEmptyValues: seq<string> := []

  /** The answers during one run: the error building the client, if any, and the
      answer of `TagSet.GetAll`, each tag set given by its `ID` and `Name`. */
  datatype TagSetApi = TagSetApi(client: Option<Error>, tagSets: Listing<IdName>)

  /** The resource functions a `funcs` list can hold. */
  datatype ResourceFunc = TagSetResources

  /** The `funcs` list of `InitResources`, in the order it calls them. */
  const Funcs: seq<ResourceFunc> := [TagSetResources]

  /** What one resource function appends, or the error it returns. */
  function FuncResult(f: ResourceFunc, api: TagSetApi, providerName: string): Listing<Descriptor>
  {
    match f
    case TagSetResources =>
      DescribeListing(api.tagSets, TagSetKind, providerName, AllowEmptyValues)
  }

  /** The results of the functions of `Funcs`, in order. */
  function FuncResults(api: TagSetApi, providerName: string): seq<Listing<Descriptor>>
  {
    seq(|Funcs|, k requires 0 <= k < |Funcs| => FuncResult(Funcs[k], api, providerName))
  }

  /** What `InitResources` appends and returns, given the answers and the generator's provider name. */
  function TagSetRun(api: TagSetApi, providerName: string): Run
  {
    if api.client.Some? then Run([], Fail(api.client.value))
    else FailFast(FuncResults(api, providerName))
  }

  class TagSetGenerator {
    var Resources: seq<Descriptor>
    const ProviderName: string

    constructor (providerName: string)
      ensures Resources == [] && ProviderName == providerName
    {
      Resources := [];
      ProviderName := providerName;
    }

    /** Builds the client, then calls each function of `Funcs` in order and
        returns the first error. */
    method InitResources(api: TagSetApi) returns (err: Outcome)
      modifies this
      ensures Resources == old(Resources) + TagSetRun(api, ProviderName).added
      ensures err == TagSetRun(api, ProviderName).outcome
    {
      if api.client.Some? {
        return Fail(api.client.value);
      }
      ghost var results := FuncResults(api, ProviderName);
      for i := 0 to |Funcs|
        invariant Resources == old(Resources) + FailFast(results[..i]).added
        invariant FailFast(results[..i]).outcome == Nil
      {
        ghost var before := Resources;
        match Funcs[i]
        case TagSetResources =>
          err := CreateTagSetResources(api.tagSets);
        FailFastExtend(results, i, old(Resources), before, Resources);
        if err.Fail? {
          FailFastStaysFailed(results, i + 1);
          return;
        }
      }
      assert results[..|Funcs|] == results;
      return Nil;
    }

    /** Lists the tag sets and appends one descriptor per tag set, in
        listing order; a failing `GetAll` appends nothing. */
    method CreateTagSetResources(tagSets: Listing<IdName>) returns (err: Outcome)
      modifies this
      ensures Resources == old(Resources) + Items(DescribeListing(tagSets, TagSetKind, ProviderName, AllowEmptyValues))
      ensures err == if tagSets.Err? then Fail(tagSets.err) else Nil
    {
      if tagSets.Err? {
        return Fail(tagSets.err);
      }
      var items := tagSets.items;
      for j := 0 to |items|
        invariant Resources == old(Resources) + Describe(items[..j], TagSetKind, ProviderName, AllowEmptyValues)
      {
        assert items[..j + 1][..j] == items[..j];
        Resources := Resources + [Descriptor(items[j].id, items[j].name, TagSetKind, ProviderName, AllowEmptyValues)];
      }
      assert items[..|items|] == items;
      return Nil;
    }
  }

  /** A client that cannot be built: its error is returned and no resource function runs. */
  lemma ClientFailure(api: TagSetApi, providerName: string, e: Error)
    requires api.client == Some(e)
    ensures TagSetRun(api, providerName) == Run([], Fail(e))
  {
  }

  /** A failing `GetAll`: its error is returned unchanged and nothing is appended. */
  lemma GetAllFailure(api: TagSetApi, providerName: string, e: Error)
    requires api.client.None? && api.tagSets == Err(e)
    ensures TagSetRun(api, providerName) == Run([], Fail(e))
  {
    FailFastFirstError(FuncResults(api, providerName), 0, e);
  }

  /** A successful `GetAll`: nil is returned, and exactly one descriptor is appended
      per tag set, in listing order, carrying its `ID` and `Name`, the
      tag-set kind, the generator's provider name and no allow-empty values;
      an empty listing appends nothing. */
  lemma GetAllSuccess(api: TagSetApi, providerName: string, items: seq<IdName>)
    requires api.client.None? && api.tagSets == Ok(items)
    ensures TagSetRun(api, providerName).outcome == Nil
    ensures |TagSetRun(api, providerName).added| == |items|
    ensures forall k :: 0 <= k < |items| ==>
      TagSetRun(api, providerName).added[k]
        == Descriptor(items[k].id, items[k].name, TagSetKind, providerName, [])
    ensures TagSetRun(api, providerName).added == [] <==> items == []
  {
    var results := FuncResults(api, providerName);
    FailFastAllOk(results);
    assert Flatten(results) == Items(results[0]) + Flatten(results[1..]);
  }

  /** The run succeeds exactly when the client is built and `GetAll` succeeds, and
      every descriptor it appends is a tag-set descriptor of this provider. */
  lemma RunOutcome(api: TagSetApi, providerName: string)
    ensures TagSetRun(api, providerName).outcome == Nil <==> api.client.None? && api.tagSets.Ok?
    ensures forall d :: d in TagSetRun(api, providerName).added ==>
      d.kind == TagSetKind && d.provider == providerName && d.allowEmpty == []
  {
    if api.client.None? {
      match api.tagSets
      case Ok(items) => GetAllSuccess(api, providerName, items);
      case Err(e) => GetAllFailure(api, providerName, e);
    }
  }
}
