/** The CloudFormation generator: stacks from a paginated listing (deleted stacks
    skipped), then stack sets, each followed by its instances, whose ids are
    positional composite keys. */
module CloudFormation {
  import opened Discovery
  import opened CompositeKey

  const Provider: string := "aws"
  /** `cloudFormationAllowEmptyValues`. */
  const AllowEmptyValues: seq<string> := ["tags."]
  const StackKind: string := "aws_cloudformation_stack"
  const StackSetKind: string := "aws_cloudformation_stack_set"
  const InstanceKind: string := "aws_cloudformation_stack_set_instance"
  /** `cloudformation.StackStatusDeleteComplete`. */
  const DeleteComplete: string := "DELETE_COMPLETE"

  /** The fields of a `StackSummary` the generator reads. */
  datatype StackSummary = StackSummary(stackName: string, stackStatus: string)

  /** The field of a `StackSetSummary` the generator reads. */
  datatype StackSetSummary = StackSetSummary(stackSetName: string)

  /** The fields of a `StackInstanceSummary` the generator reads; each may be nil. */
  datatype StackInstanceSummary = StackInstanceSummary(stackSetId: Option<string>, account: Option<string>, region: Option<string>)

  /** A listed stack set together with the answer that listing its instances
      (`ListStackInstances` with the set's name) gives. */
  datatype StackSetEntry = StackSetEntry(summary: StackSetSummary, instances: Listing<StackInstanceSummary>)

  /** The answers the CloudFormation service gives during one run: the configuration
      error, if any; the stack paginator; and the stack-set listing, each set with
      the answer of its instance listing. */
  datatype CloudFormationApi = CloudFormationApi(
    config: Option<Error>,
    stacks: Pages<StackSummary>,
    stackSets: Listing<StackSetEntry>)

  function StackDescriptor(name: string): Descriptor
  {
    Descriptor(name, name, StackKind, Provider, AllowEmptyValues)
  }

  function StackSetDescriptor(name: string): Descriptor
  {
    Descriptor(name, name, StackSetKind, Provider, AllowEmptyValues)
  }

  /** The composite key of a stack-set instance: its set id, account and region,
      comma-separated, a nil field standing as "". */
  function InstanceId(x: StackInstanceSummary): string
  {
    StringValue(x.stackSetId) + "," + StringValue(x.account) + "," + StringValue(x.region)
  }

  function InstanceDescriptor(x: StackInstanceSummary): Descriptor
  {
    Descriptor(InstanceId(x), InstanceId(x), InstanceKind, Provider, AllowEmptyValues)
  }

  /** A descriptor of one of the generator's three kinds, with its fixed provider
      and allow-empty list and with its name equal to its id. */
  predicate FromCloudFormation(d: Descriptor)
  {
    && d.provider == Provider
    && d.allowEmpty == AllowEmptyValues
    && d.id == d.name
    && (d.kind == StackKind || d.kind == StackSetKind || d.kind == InstanceKind)
  }

  /** Whether a stack summary yields a descriptor: every status but DELETE_COMPLETE does. */
  predicate Kept(s: StackSummary)
  {
    s.stackStatus != DeleteComplete
  }

  /** The stack descriptors of one page, in page order. */
  function PageStacks(page: seq<StackSummary>): (r: seq<Descriptor>)
    ensures |r| <= |page|
    ensures forall d :: d in r ==> d == StackDescriptor(d.name)
  {
    if page == [] then []
    else
      var last := page[|page| - 1];
      PageStacks(page[..|page| - 1]) + (if Kept(last) then [StackDescriptor(last.stackName)] else [])
  }

  /** The stack descriptors of a sequence of pages, page after page. */
  function PagesStacks(pages: seq<seq<StackSummary>>): (r: seq<Descriptor>)
    ensures forall d :: d in r ==> d == StackDescriptor(d.name)
  {
    if pages == [] then []
    else PagesStacks(pages[..|pages| - 1]) + PageStacks(pages[|pages| - 1])
  }

  /** The instance descriptors of one instance listing, in listing order. */
  function InstanceDescriptors(xs: seq<StackInstanceSummary>): (r: seq<Descriptor>)
    ensures |r| == |xs|
    ensures forall k :: 0 <= k < |r| ==> r[k] == InstanceDescriptor(xs[k])
  {
    if xs == [] then []
    else InstanceDescriptors(xs[..|xs| - 1]) + [InstanceDescriptor(xs[|xs| - 1])]
  }

  /** Processing stack sets in order: each set's descriptor is appended, then its
      instances are listed; a failing instance listing ends the run with its error,
      after the set's own descriptor. Defined on the last set so that it follows a
      loop over a prefix of the sets. */
  function StackSetsRun(sets: seq<StackSetEntry>): (r: Run)
    ensures forall d :: d in r.added ==> FromCloudFormation(d)
  {
    if sets == [] then Run([], Nil)
    else
      var prev := StackSetsRun(sets[..|sets| - 1]);
      if prev.outcome.Fail? then prev
      else
        var last := sets[|sets| - 1];
        var withSet := prev.added + [StackSetDescriptor(last.summary.stackSetName)];
        match last.instances
        case Err(e) => Run(withSet, Fail(e))
        case Ok(xs) => Run(withSet + InstanceDescriptors(xs), Nil)
  }

  /** Reference definition: a stack set's descriptor directly followed by its instances' descriptors. */
  function Group(s: StackSetEntry): seq<Descriptor>
  {
    [StackSetDescriptor(s.summary.stackSetName)] + (if s.instances.Ok? then InstanceDescriptors(s.instances.items) else [])
  }

  /** Reference definition: the groups of a sequence of stack sets, in order. */
  function Groups(sets: seq<StackSetEntry>): seq<Descriptor>
  {
    if sets == [] then [] else Group(sets[0]) + Groups(sets[1..])
  }

  /** What `InitResources` appends and returns, given the service's answers. */
  function CloudFormationRun(api: CloudFormationApi): (r: Run)
    ensures forall d :: d in r.added ==> FromCloudFormation(d)
  {
    if api.config.Some? then Run([], Fail(api.config.value))
    else
      var stacks := PagesStacks(api.stacks.pages);
      if api.stacks.failure.Some? then Run(stacks, Fail(api.stacks.failure.value))
      else
        match api.stackSets
        case Err(e) => Run(stacks, Fail(e))
        case Ok(sets) =>
          var rest := StackSetsRun(sets);
          Run(stacks + rest.added, rest.outcome)
  }

  /** The concatenation of pages, in order. */
  function Concat(pages: seq<seq<StackSummary>>): seq<StackSummary>
  {
    if pages == [] then [] else Concat(pages[..|pages| - 1]) + pages[|pages| - 1]
  }

  class CloudFormationGenerator {
    var Resources: seq<Descriptor>

    constructor ()
      ensures Resources == []
    {
      Resources := [];
    }

    /** Lists the stacks page by page, then the stack sets and each set's instances,
        appending one descriptor per object and returning the first error. */
    method InitResources(api: CloudFormationApi) returns (err: Outcome)
      modifies this
      ensures Resources == old(Resources) + CloudFormationRun(api).added
      ensures err == CloudFormationRun(api).outcome
    {
      if api.config.Some? {
        return Fail(api.config.value);
      }
      err := LoadStacks(api.stacks);
      if err.Fail? {
        return;
      }
      if api.stackSets.Err? {
        return Fail(api.stackSets.err);
      }
      err := LoadStackSets(api.stackSets.items);
    }

    /** Drives the stack paginator: every page in order, every summary of a page in
        order, skipping deleted stacks; the paginator's error is checked only after
        the last page. */
    method LoadStacks(stacks: Pages<StackSummary>) returns (err: Outcome)
      modifies this
      ensures Resources == old(Resources) + PagesStacks(stacks.pages)
      ensures err == if stacks.failure.Some? then Fail(stacks.failure.value) else Nil
    {
      var pages := stacks.pages;
      var p := 0;
      while p < |pages|
        invariant 0 <= p <= |pages|
        invariant Resources == old(Resources) + PagesStacks(pages[..p])
      {
        var page := pages[p];
        assert pages[..p + 1][..p] == pages[..p];
        for i := 0 to |page|
          invariant Resources == old(Resources) + PagesStacks(pages[..p]) + PageStacks(page[..i])
        {
          assert page[..i + 1][..i] == page[..i];
          var stackSummary := page[i];
          if stackSummary.stackStatus == DeleteComplete {
            continue;
          }
          Resources := Resources + [StackDescriptor(stackSummary.stackName)];
        }
        assert page[..|page|] == page;
        p := p + 1;
      }
      assert pages[..p] == pages;
      if stacks.failure.Some? {
        return Fail(stacks.failure.value);
      }
      return Nil;
    }

    /** For each stack set in order: appends its descriptor, lists its instances and
        appends one descriptor per instance; the first failing instance listing
        ends the loop with its error. */
    method LoadStackSets(sets: seq<StackSetEntry>) returns (err: Outcome)
      modifies this
      ensures Resources == old(Resources) + StackSetsRun(sets).added
      ensures err == StackSetsRun(sets).outcome
    {
      for s := 0 to |sets|
        invariant Resources == old(Resources) + StackSetsRun(sets[..s]).added
        invariant StackSetsRun(sets[..s]).outcome == Nil
      {
        ghost var prev := StackSetsRun(sets[..s]).added;
        ghost var upTo := sets[..s + 1];
        assert upTo[..s] == sets[..s] && upTo[s] == sets[s];
        var name := sets[s].summary.stackSetName;
        Resources := Resources + [StackSetDescriptor(name)];
        var instances := sets[s].instances;
        if instances.Err? {
          assert StackSetsRun(upTo) == Run(prev + [StackSetDescriptor(name)], Fail(instances.err));
          StackSetsStaysFailed(sets, s + 1);
          return Fail(instances.err);
        }
        var xs := instances.items;
        AppendInstances(xs);
        assert StackSetsRun(upTo) == Run(prev + [StackSetDescriptor(name)] + InstanceDescriptors(xs), Nil);
      }
      assert sets[..|sets|] == sets;
      return Nil;
    }

    /** The loop over one stack set's instances: one descriptor per instance, in
        listing order, whose id and name are the instance's composite key. */
    method AppendInstances(xs: seq<StackInstanceSummary>)
      modifies this
      ensures Resources == old(Resources) + InstanceDescriptors(xs)
    {
      for i := 0 to |xs|
        invariant Resources == old(Resources) + InstanceDescriptors(xs[..i])
      {
        assert xs[..i + 1][..i] == xs[..i];
        var id := StringValue(xs[i].stackSetId) + "," + StringValue(xs[i].account) + "," + StringValue(xs[i].region);
        Resources := Resources + [Descriptor(id, id, InstanceKind, Provider, AllowEmptyValues)];
      }
      assert xs[..|xs|] == xs;
    }
  }

  /** Once a prefix of the stack sets has failed, the later sets are not processed. */
  lemma {:induction false} StackSetsStaysFailed(sets: seq<StackSetEntry>, k: nat)
    requires k <= |sets|
    requires StackSetsRun(sets[..k]).outcome.Fail?
    ensures StackSetsRun(sets) == StackSetsRun(sets[..k])
    decreases |sets|
  {
    if k < |sets| {
      var init := sets[..|sets| - 1];
      assert init[..k] == sets[..k];
      StackSetsStaysFailed(init, k);
    } else {
      assert sets[..k] == sets;
    }
  }

  // Stacks

  /** Filtering a page distributes over concatenation: summaries are processed in page order. */
  lemma {:induction false} PageStacksConcat(a: seq<StackSummary>, b: seq<StackSummary>)
    ensures PageStacks(a + b) == PageStacks(a) + PageStacks(b)
    decreases |b|
  {
    if b == [] {
      assert a + b == a;
    } else {
      var ab := a + b;
      var init := b[..|b| - 1];
      assert ab[..|ab| - 1] == a + init;
      assert ab[|ab| - 1] == b[|b| - 1];
      PageStacksConcat(a, init);
    }
  }

  /** A page read from the front: a DELETE_COMPLETE summary yields nothing, every
      other summary exactly its stack descriptor, ahead of the rest of the page. */
  lemma {:induction false} PageStacksCons(s: StackSummary, rest: seq<StackSummary>)
    ensures PageStacks([s] + rest) ==
      (if s.stackStatus == DeleteComplete then [] else [StackDescriptor(s.stackName)]) + PageStacks(rest)
  {
    PageStacksConcat([s], rest);
    assert PageStacks([s]) == PageStacks([]) + (if Kept(s) then [StackDescriptor(s.stackName)] else []);
  }

  /** A stack descriptor is produced exactly for the names of the summaries that are not DELETE_COMPLETE. */
  lemma {:induction false} PageStacksMembership(page: seq<StackSummary>, d: Descriptor)
    ensures d in PageStacks(page) <==>
      exists i :: 0 <= i < |page| && page[i].stackStatus != DeleteComplete && d == StackDescriptor(page[i].stackName)
    decreases |page|
  {
    if page != [] {
      var init := page[..|page| - 1];
      var last := page[|page| - 1];
      PageStacksMembership(init, d);
      if d in PageStacks(page) {
        if d in PageStacks(init) {
          var i :| 0 <= i < |init| && init[i].stackStatus != DeleteComplete && d == StackDescriptor(init[i].stackName);
          assert page[i] == init[i];
        } else {
          assert page[|page| - 1] == last;
        }
      }
      if exists i :: 0 <= i < |page| && page[i].stackStatus != DeleteComplete && d == StackDescriptor(page[i].stackName) {
        var i :| 0 <= i < |page| && page[i].stackStatus != DeleteComplete && d == StackDescriptor(page[i].stackName);
        if i < |init| {
          assert init[i] == page[i];
        }
      }
    }
  }

  /** Walking the pages one after the other gives what one listing of all their summaries would:
      pages are consumed in order and none is skipped or repeated. */
  lemma {:induction false} PagesStacksInOrder(pages: seq<seq<StackSummary>>)
    ensures PagesStacks(pages) == PageStacks(Concat(pages))
    decreases |pages|
  {
    if pages != [] {
      PagesStacksInOrder(pages[..|pages| - 1]);
      PageStacksConcat(Concat(pages[..|pages| - 1]), pages[|pages| - 1]);
    }
  }

  /** A listing with one deleted and one active stack yields the active stack's descriptor only. */
  lemma ScenarioDeletedStackSkipped()
    ensures PageStacks([StackSummary("old", "DELETE_COMPLETE"), StackSummary("web", "CREATE_COMPLETE")])
      == [Descriptor("web", "web", "aws_cloudformation_stack", "aws", ["tags."])]
  {
    var page := [StackSummary("old", "DELETE_COMPLETE"), StackSummary("web", "CREATE_COMPLETE")];
    assert page[..1] == [page[0]] && page[..1][..0] == [];
  }

  /** A paginator error is returned after the pages it delivered were processed, before any stack set is listed. */
  lemma PaginationFailure(api: CloudFormationApi, e: Error)
    requires api.config.None?
    requires api.stacks.failure == Some(e)
    ensures CloudFormationRun(api) == Run(PagesStacks(api.stacks.pages), Fail(e))
    ensures forall d :: d in CloudFormationRun(api).added ==> d.kind == StackKind
  {
  }

  /** A failing stack-set listing is returned unchanged, after the stacks and before any stack-set descriptor. */
  lemma StackSetListingFailure(api: CloudFormationApi, e: Error)
    requires api.config.None? && api.stacks.failure.None?
    requires api.stackSets == Err(e)
    ensures CloudFormationRun(api) == Run(PagesStacks(api.stacks.pages), Fail(e))
    ensures forall d :: d in CloudFormationRun(api).added ==> d.kind == StackKind
  {
  }

  // Stack sets and their instances

  lemma {:induction false} GroupsSnoc(sets: seq<StackSetEntry>, last: StackSetEntry)
    ensures Groups(sets + [last]) == Groups(sets) + Group(last)
  {
    var s := sets + [last];
    if sets == [] {
      assert s == [last] && s[1..] == [];
    } else {
      assert s[0] == sets[0] && s[1..] == sets[1..] + [last];
      GroupsSnoc(sets[1..], last);
    }
  }

  lemma {:induction false} StackSetsAllOk(sets: seq<StackSetEntry>)
    requires forall k :: 0 <= k < |sets| ==> sets[k].instances.Ok?
    ensures StackSetsRun(sets) == Run(Groups(sets), Nil)
    decreases |sets|
  {
    if sets != [] {
      var init := sets[..|sets| - 1];
      StackSetsAllOk(init);
      GroupsSnoc(init, sets[|sets| - 1]);
      assert init + [sets[|sets| - 1]] == sets;
    }
  }

  lemma {:induction false} StackSetsFirstFailure(sets: seq<StackSetEntry>, k: nat, e: Error)
    requires k < |sets|
    requires forall j :: 0 <= j < k ==> sets[j].instances.Ok?
    requires sets[k].instances == Err(e)
    ensures StackSetsRun(sets) == Run(Groups(sets[..k]) + [StackSetDescriptor(sets[k].summary.stackSetName)], Fail(e))
  {
    var upTo := sets[..k + 1];
    assert upTo[..k] == sets[..k] && upTo[k] == sets[k];
    StackSetsAllOk(sets[..k]);
    StackSetsStaysFailed(sets, k + 1);
  }

  /** When every listing succeeds, the run returns nil and appends the stacks, then
      for each stack set in order its descriptor directly followed by its instances'. */
  lemma AllListingsSucceed(api: CloudFormationApi)
    requires api.config.None? && api.stacks.failure.None? && api.stackSets.Ok?
    requires forall k :: 0 <= k < |api.stackSets.items| ==> api.stackSets.items[k].instances.Ok?
    ensures CloudFormationRun(api) == Run(PagesStacks(api.stacks.pages) + Groups(api.stackSets.items), Nil)
  {
    StackSetsAllOk(api.stackSets.items);
  }

  /** When the instance listing of stack set k is the first to fail, its error is
      returned; the stacks, the groups of the sets before k and set k's own
      descriptor stay appended, and no later set is processed. */
  lemma InstanceListingFailure(api: CloudFormationApi, k: nat, e: Error)
    requires api.config.None? && api.stacks.failure.None? && api.stackSets.Ok?
    requires k < |api.stackSets.items|
    requires forall j :: 0 <= j < k ==> api.stackSets.items[j].instances.Ok?
    requires api.stackSets.items[k].instances == Err(e)
    ensures CloudFormationRun(api) == Run(
      PagesStacks(api.stacks.pages) + Groups(api.stackSets.items[..k])
        + [StackSetDescriptor(api.stackSets.items[k].summary.stackSetName)],
      Fail(e))
  {
    StackSetsFirstFailure(api.stackSets.items, k, e);
  }

  /** One stack set listing two instances yields the set's descriptor and then two
      instance descriptors keyed by set id, account and region. */
  lemma ScenarioInstanceKeys()
    ensures StackSetsRun([StackSetEntry(StackSetSummary("s1"), Ok([
        StackInstanceSummary(Some("s1"), Some("111"), Some("us-east-1")),
        StackInstanceSummary(Some("s1"), Some("222"), Some("us-west-2"))]))])
      == Run([StackSetDescriptor("s1"),
              Descriptor("s1,111,us-east-1", "s1,111,us-east-1", InstanceKind, Provider, AllowEmptyValues),
              Descriptor("s1,222,us-west-2", "s1,222,us-west-2", InstanceKind, Provider, AllowEmptyValues)], Nil)
  {
    var xs := [StackInstanceSummary(Some("s1"), Some("111"), Some("us-east-1")),
               StackInstanceSummary(Some("s1"), Some("222"), Some("us-west-2"))];
    var sets := [StackSetEntry(StackSetSummary("s1"), Ok(xs))];
    assert sets[..0] == [];
    assert StackSetsRun(sets) == Run([StackSetDescriptor("s1")] + InstanceDescriptors(xs), Nil);
    assert InstanceId(xs[0]) == "s1,111,us-east-1";
    assert InstanceId(xs[1]) == "s1,222,us-west-2";
    assert InstanceDescriptors(xs) == [InstanceDescriptor(xs[0]), InstanceDescriptor(xs[1])];
  }

  // The composite key

  /** The key always has (at least) three comma-separated slots, one per field, in
      the order set id, account, region; a nil field gives an empty slot. */
  lemma InstanceIdSlots(x: StackInstanceSummary)
    ensures Split(InstanceId(x)) == Split(StringValue(x.stackSetId)) + Split(StringValue(x.account)) + Split(StringValue(x.region))
    ensures |Split(InstanceId(x))| >= 3
  {
    var a, b, c := StringValue(x.stackSetId), StringValue(x.account), StringValue(x.region);
    SplitConcat(a, b + "," + c);
    SplitConcat(b, c);
    assert InstanceId(x) == a + [Delimiter] + (b + [Delimiter] + c);
  }

  /** When no field contains a comma, splitting the key recovers the three fields. */
  lemma InstanceIdFields(x: StackInstanceSummary)
    requires Delimiter !in StringValue(x.stackSetId)
    requires Delimiter !in StringValue(x.account)
    requires Delimiter !in StringValue(x.region)
    ensures Split(InstanceId(x)) == [StringValue(x.stackSetId), StringValue(x.account), StringValue(x.region)]
  {
    InstanceIdSlots(x);
    SplitUndelimited(StringValue(x.stackSetId));
    SplitUndelimited(StringValue(x.account));
    SplitUndelimited(StringValue(x.region));
  }

  /** Comma-free instances with the same key have the same set id, account and region. */
  lemma InstanceIdInjective(x: StackInstanceSummary, y: StackInstanceSummary)
    requires Delimiter !in StringValue(x.stackSetId) && Delimiter !in StringValue(x.account) && Delimiter !in StringValue(x.region)
    requires Delimiter !in StringValue(y.stackSetId) && Delimiter !in StringValue(y.account) && Delimiter !in StringValue(y.region)
    requires InstanceId(x) == InstanceId(y)
    ensures StringValue(x.stackSetId) == StringValue(y.stackSetId)
    ensures StringValue(x.account) == StringValue(y.account)
    ensures StringValue(x.region) == StringValue(y.region)
  {
    InstanceIdFields(x);
    InstanceIdFields(y);
  }

  /** The delimiter is not escaped: a comma inside a field lets two different instances share a key. */
  lemma InstanceIdCollision()
    ensures var x := StackInstanceSummary(Some("a,b"), Some("c"), Some("d"));
            var y := StackInstanceSummary(Some("a"), Some("b,c"), Some("d"));
            x != y && InstanceId(x) == InstanceId(y)
  {
    var x := StackInstanceSummary(Some("a,b"), Some("c"), Some("d"));
    var y := StackInstanceSummary(Some("a"), Some("b,c"), Some("d"));
    assert x.stackSetId != y.stackSetId;
  }
}
