/** The WAF Regional generator: twelve list calls, one per kind of WAF object, run
    in a fixed order; each appends one descriptor per listed object and the first
    failing call ends the run. */
module WafRegional {
  import opened Discovery

  const Provider: string := "aws"

  /** `wafAllowEmptyValues`, defined outside the modelled files: an opaque constant. */
  const WafAllowEmptyValues: seq<string>

  /** The twelve load steps, one per list call of the WAF Regional API. */
  datatype WafStep =
    | WebACL | ByteMatchSet | GeoMatchSet | IPSet | RateBasedRule | RegexMatchSet
    | RegexPatternSet | Rule | RuleGroup | SizeConstraintSet | SqlInjectionMatchSet | XssMatchSet

  /** The order in which `InitResources` runs the load steps. */
  const StepOrder: seq<WafStep> := [
    WebACL, ByteMatchSet, GeoMatchSet, IPSet, RateBasedRule, RegexMatchSet,
    RegexPatternSet, Rule, RuleGroup, SizeConstraintSet, SqlInjectionMatchSet, XssMatchSet]

  /** The fixed resource kind each load step writes. */
  function Kind(step: WafStep): string
  {
    match step
    case WebACL => "aws_wafregional_web_acl"
    case ByteMatchSet => "aws_wafregional_byte_match_set"
    case GeoMatchSet => "aws_wafregional_geo_match_set"
    case IPSet => "aws_wafregional_ipset"
    case RateBasedRule => "aws_wafregional_rate_based_rule"
    case RegexMatchSet => "aws_wafregional_regex_match_set"
    case RegexPatternSet => "aws_wafregional_regex_pattern_set"
    case Rule => "aws_wafregional_rule"
    case RuleGroup => "aws_wafregional_rule_group"
    case SizeConstraintSet => "aws_wafregional_size_constraint_set"
    case SqlInjectionMatchSet => "aws_wafregional_sql_injection_match_set"
    case XssMatchSet => "aws_wafregional_xss_match_set"
  }

  /** The answers the WAF Regional service gives during one run: the configuration
      error, if any, and the answer of each list call. Each listed object is given
      by its native id field (`WebACLId`, `ByteMatchSetId`, `RuleId`, ...) and its `Name`. */
  datatype WafRegionalApi = WafRegionalApi(
    config: Option<Error>,
    webACLs: Listing<IdName>,
    byteMatchSets: Listing<IdName>,
    geoMatchSets: Listing<IdName>,
    ipSets: Listing<IdName>,
    rateBasedRules: Listing<IdName>,
    regexMatchSets: Listing<IdName>,
    regexPatternSets: Listing<IdName>,
    rules: Listing<IdName>,
    ruleGroups: Listing<IdName>,
    sizeConstraintSets: Listing<IdName>,
    sqlInjectionMatchSets: Listing<IdName>,
    xssMatchSets: Listing<IdName>)

  /** The answer of the list call a load step makes. */
  function Answer(api: WafRegionalApi, step: WafStep): Listing<IdName>
  {
    match step
    case WebACL => api.webACLs
    case ByteMatchSet => api.byteMatchSets
    case GeoMatchSet => api.geoMatchSets
    case IPSet => api.ipSets
    case RateBasedRule => api.rateBasedRules
    case RegexMatchSet => api.regexMatchSets
    case RegexPatternSet => api.regexPatternSets
    case Rule => api.rules
    case RuleGroup => api.ruleGroups
    case SizeConstraintSet => api.sizeConstraintSets
    case SqlInjectionMatchSet => api.sqlInjectionMatchSets
    case XssMatchSet => api.xssMatchSets
  }

  /** What a load step appends, or the error it returns. */
  function StepResult(step: WafStep, output: Listing<IdName>): Listing<Descriptor>
  {
    DescribeListing(output, Kind(step), Provider, WafAllowEmptyValues)
  }

  /** The results of running the given steps against the service's answers, one per step. */
  function StepResults(steps: seq<WafStep>, api: WafRegionalApi): (r: seq<Listing<Descriptor>>)
    ensures |r| == |steps|
  {
    if steps == [] then []
    else
      var init := steps[..|steps| - 1];
      var last := steps[|steps| - 1];
      StepResults(init, api) + [StepResult(last, Answer(api, last))]
  }

  /** The service's answers in step order. */
  function Answers(steps: seq<WafStep>, api: WafRegionalApi): (r: seq<Listing<IdName>>)
    ensures |r| == |steps|
    ensures forall k :: 0 <= k < |r| ==> r[k] == Answer(api, steps[k])
  {
    if steps == [] then []
    else
      var init := steps[..|steps| - 1];
      var last := steps[|steps| - 1];
      Answers(init, api) + [Answer(api, last)]
  }

  /** What `InitResources` appends and returns, given the service's answers. */
  function WafRun(api: WafRegionalApi): Run
  {
    if api.config.Some? then Run([], Fail(api.config.value))
    else FailFast(StepResults(StepOrder, api))
  }

  class WafRegionalGenerator {
    var Resources: seq<Descriptor>

    constructor ()
      ensures Resources == []
    {
      Resources := [];
    }

    /** Runs the load steps in `StepOrder`, returning the first error. */
    method InitResources(api: WafRegionalApi) returns (err: Outcome)
      modifies this
      ensures Resources == old(Resources) + WafRun(api).added
      ensures err == WafRun(api).outcome
    {
      if api.config.Some? {
        return Fail(api.config.value);
      }
      err := LoadSteps(StepOrder, api);
    }

    /** The twelve calls to `load*` in a row, over any sequence of steps: each step
        runs only when every step before it returned nil. */
    method LoadSteps(steps: seq<WafStep>, api: WafRegionalApi) returns (err: Outcome)
      modifies this
      ensures Resources == old(Resources) + FailFast(StepResults(steps, api)).added
      ensures err == FailFast(StepResults(steps, api)).outcome
    {
      ghost var results := StepResults(steps, api);
      for i := 0 to |steps|
        invariant Resources == old(Resources) + FailFast(results[..i]).added
        invariant FailFast(results[..i]).outcome == Nil
      {
        var step := steps[i];
        ghost var before := Resources;
        StepResultsAt(steps, api, i);
        err := LoadStep(Kind(step), Answer(api, step));
        FailFastExtend(results, i, old(Resources), before, Resources);
        if err.Fail? {
          FailFastStaysFailed(results, i + 1);
          return;
        }
      }
      assert results[..|steps|] == results;
      return Nil;
    }

    /** One `load*` method: lists the step's objects and appends one descriptor per
        object, in listing order; a failing list call appends nothing. */
    method LoadStep(kind: string, output: Listing<IdName>) returns (err: Outcome)
      modifies this
      ensures Resources == old(Resources) + Items(DescribeListing(output, kind, Provider, WafAllowEmptyValues))
      ensures err == if output.Err? then Fail(output.err) else Nil
    {
      if output.Err? {
        return Fail(output.err);
      }
      var items := output.items;
      for j := 0 to |items|
        invariant Resources == old(Resources) + Describe(items[..j], kind, Provider, WafAllowEmptyValues)
      {
        assert items[..j + 1][..j] == items[..j];
        Resources := Resources + [Descriptor(items[j].id, items[j].name, kind, Provider, WafAllowEmptyValues)];
      }
      assert items[..|items|] == items;
      return Nil;
    }
  }

  /** Every load step appears in the order exactly once, and no two steps share a kind. */
  lemma StepOrderCoversEachStepOnce()
    ensures forall s: WafStep :: s in StepOrder
    ensures forall i, j :: 0 <= i < j < |StepOrder| ==> Kind(StepOrder[i]) != Kind(StepOrder[j])
  {
    forall s: WafStep ensures s in StepOrder {
      match s
      case WebACL => assert StepOrder[0] == s;
      case ByteMatchSet => assert StepOrder[1] == s;
      case GeoMatchSet => assert StepOrder[2] == s;
      case IPSet => assert StepOrder[3] == s;
      case RateBasedRule => assert StepOrder[4] == s;
      case RegexMatchSet => assert StepOrder[5] == s;
      case RegexPatternSet => assert StepOrder[6] == s;
      case Rule => assert StepOrder[7] == s;
      case RuleGroup => assert StepOrder[8] == s;
      case SizeConstraintSet => assert StepOrder[9] == s;
      case SqlInjectionMatchSet => assert StepOrder[10] == s;
      case XssMatchSet => assert StepOrder[11] == s;
    }
  }

  /** A configuration error is returned before any load step runs. */
  lemma ConfigFailure(api: WafRegionalApi, e: Error)
    requires api.config == Some(e)
    ensures WafRun(api) == Run([], Fail(e))
  {
  }

  /** When every list call succeeds, the run returns nil and appends each step's
      descriptors in step order, one per listed object. */
  lemma AllStepsSucceed(api: WafRegionalApi)
    requires api.config.None?
    requires forall s: WafStep :: Answer(api, s).Ok?
    ensures WafRun(api) == Run(Flatten(StepResults(StepOrder, api)), Nil)
    ensures |WafRun(api).added| == ItemCount(Answers(StepOrder, api))
  {
    var results := StepResults(StepOrder, api);
    StepResultsPointwise(StepOrder, api);
    FailFastAllOk(results);
    FlattenLength(results);
    StepResultsCount(StepOrder, api);
  }

  /** When step k of the order is the first whose list call fails, its error is
      returned unchanged and the run appended exactly the descriptors of the steps
      before k: the failing step adds nothing and no later step is attempted. */
  lemma FirstFailingStep(api: WafRegionalApi, k: nat, e: Error)
    requires api.config.None?
    requires k < |StepOrder|
    requires forall j :: 0 <= j < k ==> Answer(api, StepOrder[j]).Ok?
    requires Answer(api, StepOrder[k]) == Err(e)
    ensures WafRun(api) == Run(Flatten(StepResults(StepOrder, api)[..k]), Fail(e))
    ensures forall d :: d in WafRun(api).added ==> exists j :: 0 <= j < k && d.kind == Kind(StepOrder[j])
  {
    var results := StepResults(StepOrder, api);
    StepResultsPointwise(StepOrder, api);
    FailFastFirstError(results, k, e);
    forall d | d in WafRun(api).added
      ensures exists j :: 0 <= j < k && d.kind == Kind(StepOrder[j])
    {
      var j := FlattenMember(results[..k], d);
      assert results[..k][j] == results[j];
      var ds := Describe(Answer(api, StepOrder[j]).items, Kind(StepOrder[j]), Provider, WafAllowEmptyValues);
      var i :| 0 <= i < |ds| && ds[i] == d;
    }
  }

  /** Every descriptor the generator appends has provider "aws", the WAF allow-empty
      list and the kind of one of the twelve steps. */
  lemma DescriptorShape(api: WafRegionalApi, d: Descriptor)
    requires d in WafRun(api).added
    ensures d.provider == Provider && d.allowEmpty == WafAllowEmptyValues
    ensures exists s: WafStep :: d.kind == Kind(s)
  {
    var results := StepResults(StepOrder, api);
    StepResultsPointwise(StepOrder, api);
    var j := FailFastMember(results, d);
    var ds := Describe(Answer(api, StepOrder[j]).items, Kind(StepOrder[j]), Provider, WafAllowEmptyValues);
    var i :| 0 <= i < |ds| && ds[i] == d;
  }

  lemma {:induction false} StepResultsCount(steps: seq<WafStep>, api: WafRegionalApi)
    ensures ItemCount(StepResults(steps, api)) == ItemCount(Answers(steps, api))
    decreases |steps|
  {
    if steps != [] {
      var r := StepResults(steps, api);
      var a := Answers(steps, api);
      StepResultsPointwise(steps, api);
      StepResultsPointwise(steps[1..], api);
      assert r[1..] == StepResults(steps[1..], api);
      assert a[1..] == Answers(steps[1..], api);
      StepResultsCount(steps[1..], api);
    }
  }

  /** Every recorded result is the one its step computes from its own answer. */
  lemma StepResultsPointwise(steps: seq<WafStep>, api: WafRegionalApi)
    ensures forall k :: 0 <= k < |steps| ==>
      StepResults(steps, api)[k] == StepResult(steps[k], Answer(api, steps[k]))
  {
    forall k | 0 <= k < |steps|
      ensures StepResults(steps, api)[k] == StepResult(steps[k], Answer(api, steps[k]))
    {
      StepResultsAt(steps, api, k);
    }
  }

  /** The result recorded for step k is the one that step computes from its own answer. */
  lemma {:induction false} StepResultsAt(steps: seq<WafStep>, api: WafRegionalApi, k: nat)
    requires k < |steps|
    ensures StepResults(steps, api)[k] == StepResult(steps[k], Answer(api, steps[k]))
    decreases |steps|
  {
    if k < |steps| - 1 {
      StepResultsAt(steps[..|steps| - 1], api, k);
    }
  }
}
