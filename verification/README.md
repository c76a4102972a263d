# Terraformer resource-discovery generators in Dafny

This project models four resource-discovery generators of terraformer. Each generator asks a remote API for the objects of some kinds. For every object it appends one resource descriptor (id, name, kind, provider, allow-empty list) to its `Resources` list. It returns the first error it meets.

- **CloudFormation** (`providers/aws/cloudformation.go`). It lists stacks through a paginator and skips every stack whose status is `DELETE_COMPLETE`. The paginator's error is checked only after the last page. It then lists stack sets. After each set's own descriptor it lists that set's instances. An instance's id and name are the composite key `StackSetId + "," + Account + "," + Region`, where a nil field stands as `""`.
- **WAF Regional** (`providers/aws/waf_regional.go`). It runs twelve `load*` steps in a fixed order, one per WAF object kind. Each step makes one list call. The first failing step ends the run.
- **Octopus Deploy environments and tag sets** (`providers/octopusdeploy/environments.go`, `providers/octopusdeploy/tag_set.go`). Each builds a client, then runs the functions of a `funcs` list in order with a fail-fast return. The one function lists the objects with `GetAll`. Each descriptor gets the generator's `ProviderName` and an empty allow-empty list.

Each generator is a Dafny class. Its `Resources: seq<Descriptor>` field is updated in place by methods that keep the source's loops and early returns. The remote answers are inputs:
- a `Listing` is the objects of a single-shot call, or its error;
- a `Pages` value is the pages a paginator delivers, then the error `Err()` reports, if any;
- an optional `Error` stands for configuration or client construction.

Every `InitResources` is proved against a specification function of those answers: `CloudFormationRun`, `WafRun`, `EnvironmentRun` or `TagSetRun`. That function gives what is appended and what is returned. The lemmas beside it state the generator's properties:
- fail-fast order;
- the `DELETE_COMPLETE` filter;
- page order;
- parent/child grouping;
- the composite key's split, injectivity and collision;
- the fixed kinds, provider and allow-empty lists;
- the error paths.

The shared vocabulary is in `discovery.dfy`:
- `Descriptor` and `Describe`;
- `FailFast`, the fail-fast composition of steps, with its lemmas;
- the reference definition `Flatten`.

`composite_key.dfy` models `aws.StringValue` and a splitter that behaves like Go's `strings.Split`.

On failure, the code keeps whatever it appended before the error in `g.Resources`. Each model follows that, and the specification functions report it in `added`. For example, a stack set whose instance listing fails keeps its own descriptor. No generator removes what it appended before an error; a caller that wants all-or-nothing must discard `Resources` itself.

## Model

| member | source | states |
|---|---|---|
| Discovery.FailFast | providers/aws/waf_regional.go:34-72 | definition; no contract: steps run in order, each appends its descriptors, and the first error is returned with no later step run (properties in the lemmas below) |
| Discovery.Describe | providers/aws/waf_regional.go:80-87 | one descriptor per listed object, same count and same order, carrying the object's id and name with the step's kind, provider and allow-empty list |
| Discovery.FailFastStaysFailed | providers/aws/waf_regional.go:34-36 | once a prefix of the steps has failed, the later steps change neither what is appended nor the error |
| Discovery.FailFastNext | providers/octopusdeploy/environments.go:24-29 | after a successful prefix, the next step appends its descriptors and returns nil, or returns its error and appends nothing |
| Discovery.FailFastExtend | providers/octopusdeploy/environments.go:24-29 | the same step seen from a loop appending to a resource list: the list grows by exactly the step's descriptors |
| Discovery.FailFastAllOk | providers/aws/waf_regional.go:34-72 | when every step succeeds, nil is returned and the steps' descriptors are appended in step order |
| Discovery.FailFastFirstError | providers/aws/waf_regional.go:34-72 | when step k is the first to fail, its error is returned unchanged and exactly the descriptors of the steps before k are appended |
| Discovery.FailFastOutcome | providers/octopusdeploy/environments.go:24-31 | the run returns nil if and only if every step succeeds, and a returned error is one some step reported |
| Discovery.FailFastMember | providers/aws/waf_regional.go:34-72 | every appended descriptor comes from a step that succeeded |
| Discovery.FlattenLength | providers/aws/waf_regional.go:80-87 | the number appended is the number of objects the successful listings hold |
| CloudFormation.StackDescriptor | providers/aws/cloudformation.go:42-48 | definition; no contract: the stack name as id and name, kind "aws_cloudformation_stack", "aws", ["tags."] |
| CloudFormation.StackSetDescriptor | providers/aws/cloudformation.go:59-65 | definition; no contract: the set name as id and name, kind "aws_cloudformation_stack_set", "aws", ["tags."] |
| CloudFormation.InstanceId | providers/aws/cloudformation.go:74 | definition; no contract: set id, account and region joined by ",", nil as "" (properties in the `InstanceId*` lemmas) |
| CloudFormation.InstanceDescriptor | providers/aws/cloudformation.go:76-82 | definition; no contract: the composite key as id and name, kind "aws_cloudformation_stack_set_instance", "aws", ["tags."] |
| CloudFormation.CloudFormationGenerator.InitResources | providers/aws/cloudformation.go:30-87 | configuration error first, then stacks, then the stack-set listing error, then stack sets; the new `Resources` and the error are those of `CloudFormationRun` |
| CloudFormation.CloudFormationGenerator.LoadStacks | providers/aws/cloudformation.go:36-53 | appends the stacks of every delivered page in order, skipping deleted ones, and then returns the paginator's error if there is one |
| CloudFormation.CloudFormationGenerator.LoadStackSets | providers/aws/cloudformation.go:58-84 | appends each set's descriptor and then its instances' descriptors; returns the first instance-listing error, after that set's descriptor |
| CloudFormation.CloudFormationGenerator.AppendInstances | providers/aws/cloudformation.go:73-83 | appends one instance descriptor per instance, in listing order |
| CloudFormation.CloudFormationRun | providers/aws/cloudformation.go:42-82 | every descriptor appended has provider "aws", the allow-empty list ["tags."], name equal to id, and one of the three CloudFormation kinds |
| CloudFormation.PageStacks | providers/aws/cloudformation.go:38-49 | a page yields at most one descriptor per summary, each a stack descriptor named after its stack |
| CloudFormation.PagesStacks | providers/aws/cloudformation.go:37-50 | everything the pages yield is a stack descriptor |
| CloudFormation.InstanceDescriptors | providers/aws/cloudformation.go:73-83 | one descriptor per instance, in listing order, keyed by the instance's composite key |
| CloudFormation.StackSetsRun | providers/aws/cloudformation.go:58-84 | every descriptor the stack-set phase appends is a CloudFormation descriptor |
| CloudFormation.StackSetsStaysFailed | providers/aws/cloudformation.go:70-72 | after an instance listing fails, no later stack set is processed |
| CloudFormation.PageStacksConcat | providers/aws/cloudformation.go:38-49 | summaries are processed in page order: the filter distributes over concatenation |
| CloudFormation.PageStacksCons | providers/aws/cloudformation.go:39-48 | a `DELETE_COMPLETE` summary yields nothing; any other yields exactly its stack descriptor, ahead of the rest of the page |
| CloudFormation.PageStacksMembership | providers/aws/cloudformation.go:38-48 | a stack descriptor is produced if and only if some summary with that name is not `DELETE_COMPLETE` |
| CloudFormation.PagesStacksInOrder | providers/aws/cloudformation.go:37-50 | walking the pages gives what one listing of all their summaries in order would |
| CloudFormation.ScenarioDeletedStackSkipped | providers/aws/cloudformation.go:39-41 | a deleted stack and an active stack yield the active stack's descriptor only |
| CloudFormation.PaginationFailure | providers/aws/cloudformation.go:51-53 | a paginator error is returned after the delivered pages' stacks, and before any stack set is listed |
| CloudFormation.StackSetListingFailure | providers/aws/cloudformation.go:54-57 | a failing stack-set listing is returned after the stacks, with no stack-set descriptor appended |
| CloudFormation.StackSetsAllOk | providers/aws/cloudformation.go:58-84 | when every instance listing succeeds, each set's descriptor comes directly before its instances' descriptors (reference definition `Groups`) |
| CloudFormation.StackSetsFirstFailure | providers/aws/cloudformation.go:67-72 | when set k's instance listing is the first to fail, the groups before k and set k's own descriptor are appended and that error is returned |
| CloudFormation.AllListingsSucceed | providers/aws/cloudformation.go:30-87 | when every listing succeeds, nil is returned; the stacks come first, then each set followed by its instances |
| CloudFormation.InstanceListingFailure | providers/aws/cloudformation.go:67-72 | the whole run when set k's instance listing is the first to fail |
| CloudFormation.ScenarioInstanceKeys | providers/aws/cloudformation.go:73-83 | one set with two instances yields the set's descriptor and then keys "s1,111,us-east-1" and "s1,222,us-west-2" |
| CloudFormation.InstanceIdSlots | providers/aws/cloudformation.go:74 | the key splits into the splits of set id, account and region, in that order, so it has at least three slots |
| CloudFormation.InstanceIdFields | providers/aws/cloudformation.go:74 | when no field contains a comma, splitting the key gives back the three fields, with nil as "" |
| CloudFormation.InstanceIdInjective | providers/aws/cloudformation.go:74 | comma-free instances with equal keys have equal set id, account and region |
| CloudFormation.InstanceIdCollision | providers/aws/cloudformation.go:74 | the delimiter is not escaped: two different instances with a comma in a field share a key |
| CompositeKey.StringValue | providers/aws/cloudformation.go:74 | definition; no contract: `aws.StringValue`, the pointed-to string or "" for nil |
| CompositeKey.Split | providers/aws/cloudformation.go:74 | splitting gives at least one slot, and no slot contains the delimiter |
| CompositeKey.SplitJoin | providers/aws/cloudformation.go:74 | two comma-free strings joined by "," split back into exactly those two strings |
| WafRegional.StepOrder | providers/aws/waf_regional.go:34-69 | definition; no contract: the twelve steps in call order (see `StepOrderCoversEachStepOnce`) |
| WafRegional.Kind | providers/aws/waf_regional.go:84-260 | definition; no contract: the fixed kind literal of each step |
| WafRegional.WafRun | providers/aws/waf_regional.go:27-73 | definition; no contract: configuration error with nothing appended, else the fail-fast run of the twelve steps (properties in `ConfigFailure`, `AllStepsSucceed`, `FirstFailingStep`, `DescriptorShape`) |
| WafRegional.WafRegionalGenerator.InitResources | providers/aws/waf_regional.go:27-73 | configuration error first, then the twelve steps; the new `Resources` and the error are those of `WafRun` |
| WafRegional.WafRegionalGenerator.LoadSteps | providers/aws/waf_regional.go:34-72 | runs steps in order and stops at the first error; appends and returns what `FailFast` of the steps' results gives |
| WafRegional.WafRegionalGenerator.LoadStep | providers/aws/waf_regional.go:75-89 | a failing list call returns its error and appends nothing; otherwise one descriptor per object with the step's kind, "aws" and the WAF allow-empty list |
| WafRegional.StepOrderCoversEachStepOnce | providers/aws/waf_regional.go:34-70 | each of the twelve steps appears exactly once in the order, and no two write the same kind |
| WafRegional.ConfigFailure | providers/aws/waf_regional.go:28-31 | a configuration error is returned before any step runs, and nothing is appended |
| WafRegional.AllStepsSucceed | providers/aws/waf_regional.go:34-72 | when every list call succeeds, nil is returned; every step's descriptors are appended in step order, one per listed object |
| WafRegional.FirstFailingStep | providers/aws/waf_regional.go:34-70 | when step k is the first to fail, its error is returned; only the descriptors of steps before k are appended, all of those steps' kinds |
| WafRegional.DescriptorShape | providers/aws/waf_regional.go:80-86 | every appended descriptor has provider "aws", the WAF allow-empty list and one of the twelve step kinds |
| WafRegional.StepResultsAt | providers/aws/waf_regional.go:75-89 | the result recorded for step k is what that step computes from its own list call's answer |
| WafRegional.StepResultsPointwise | providers/aws/waf_regional.go:75-89 | the same for every step of the order at once |
| WafRegional.StepResultsCount | providers/aws/waf_regional.go:80-87 | the steps' descriptors number as many as the objects the successful list calls return |
| OctopusEnvironments.EnvironmentRun | providers/octopusdeploy/environments.go:14-51 | definition; no contract: client error with nothing appended, else the fail-fast run of `funcs` (properties in the lemmas below) |
| OctopusEnvironments.EnvironmentGenerator.InitResources | providers/octopusdeploy/environments.go:14-32 | client error first, then the `funcs` list in order with fail-fast return; the new `Resources` and the error are those of `EnvironmentRun` |
| OctopusEnvironments.EnvironmentGenerator.CreateEnvironmentResources | providers/octopusdeploy/environments.go:34-51 | a failing `GetAll` returns its error and appends nothing; otherwise one environment descriptor per environment, in order |
| OctopusEnvironments.ClientFailure | providers/octopusdeploy/environments.go:15-18 | a client error is returned and no resource function runs |
| OctopusEnvironments.GetAllFailure | providers/octopusdeploy/environments.go:35-38 | a failing `GetAll` is returned unchanged and nothing is appended |
| OctopusEnvironments.GetAllSuccess | providers/octopusdeploy/environments.go:40-50 | nil is returned, with exactly one `octopusdeploy_environment` descriptor per environment in order, id = ID, name = Name, provider = the generator's provider name, allow-empty list empty; an empty result appends nothing |
| OctopusEnvironments.RunOutcome | providers/octopusdeploy/environments.go:14-51 | nil is returned if and only if the client is built and `GetAll` succeeds; every appended descriptor has the environment kind, the provider name and an empty allow-empty list |
| OctopusTagSets.TagSetRun | providers/octopusdeploy/tag_set.go:14-51 | definition; no contract: client error with nothing appended, else the fail-fast run of `funcs` (properties in the lemmas below) |
| OctopusTagSets.TagSetGenerator.InitResources | providers/octopusdeploy/tag_set.go:14-32 | client error first, then the `funcs` list in order with fail-fast return; the new `Resources` and the error are those of `TagSetRun` |
| OctopusTagSets.TagSetGenerator.CreateTagSetResources | providers/octopusdeploy/tag_set.go:34-51 | a failing `GetAll` returns its error and appends nothing; otherwise one tag-set descriptor per tag set, in order |
| OctopusTagSets.ClientFailure | providers/octopusdeploy/tag_set.go:15-18 | a client error is returned and no resource function runs |
| OctopusTagSets.GetAllFailure | providers/octopusdeploy/tag_set.go:35-38 | a failing `GetAll` is returned unchanged and nothing is appended |
| OctopusTagSets.GetAllSuccess | providers/octopusdeploy/tag_set.go:40-50 | nil is returned, with exactly one `octopusdeploy_tag_set` descriptor per tag set in order, id = ID, name = Name, provider = the generator's provider name, allow-empty list empty; an empty result appends nothing |
| OctopusTagSets.RunOutcome | providers/octopusdeploy/tag_set.go:14-51 | nil is returned if and only if the client is built and `GetAll` succeeds; every appended descriptor has the tag-set kind, the provider name and an empty allow-empty list |

## Left out

- The remote calls are not modelled as calls. This covers the AWS SDK calls (`wafregional.New`, `cloudformation.New`, the `List*Request(...).Send` calls, `NewListStacksPaginator`, `context.Background`) and the Octopus `Environment.GetAll` / `TagSet.GetAll`. They are network I/O, so each is an input value giving its answer.
- `generateConfig` and `g.Client()` are modelled only as an optional up-front error. Their code is not part of this model.
- `terraform_utils.NewSimpleResource` is modelled as building the five-field `Descriptor` record. Its code is not part of this model.
- `wafAllowEmptyValues` is defined outside the modelled files. It is an uninitialised constant, so the proofs hold for any value of it.
- Nil pointer dereferences (`*acl.Name`, `*stackSummary.StackName`, a nil `GetAll` result) would panic in Go. The model gives every dereferenced field a value and does not model the panic.
- The Octopus `fmt.Sprintf("%s", ...)` on an id or name is modelled as the identity on strings.
- `aws_wafregional_web_acl_association` resources are not produced by the source, and not by the model.
- What happens to `Resources` after `InitResources` returns is outside this model: post-processing, references, and writing Terraform files.
- The twelve `load*` methods of the WAF generator have the same shape. They are modelled as one `LoadStep` whose kind and answer are chosen by the step. The twelve straight-line early-return calls are a loop over the fixed `StepOrder` (in `LoadSteps`).
- CloudFormation's single `InitResources` is split into `LoadStacks`, `LoadStackSets` and `AppendInstances`, with the same loops, order and returns.
- The answer of `ListStackInstances` for a stack set is carried with that set in the stack-set listing. The call is made only for sets the loop reaches, which the model reflects by reading the answer only then.
- The pagination model delivers every page first and reports the paginator's error afterwards, as `p.Next` / `p.Err()` do. How a page request fails inside the SDK is not modelled.
- The Octopus generators' one-element `funcs` lists are kept as a loop over a constant list, with a datatype of resource functions standing for the Go function values.
