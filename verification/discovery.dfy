/** Shared vocabulary of the resource-discovery generators: the descriptor every
    generator appends to its `Resources`, the abstract answers of the remote list
    calls, and the fail-fast composition of enumeration steps. */
module Discovery {

  datatype Option<T> = None | Some(value: T)

  /** An error reported by a remote call or by client construction; opaque to the generators. */
  datatype Error = Error(message: string)

  /** Go's `error` result: `nil`, or the error being returned. */
  datatype Outcome = Nil | Fail(err: Error)

  /** What `terraform_utils.NewSimpleResource(id, name, kind, provider, allowEmptyValues)` builds. */
  datatype Descriptor = Descriptor(id: string, name: string, kind: string, provider: string, allowEmpty: seq<string>)

  /** The answer of a single-shot list call: the listed objects in API order, or the call's error. */
  datatype Listing<T> = Ok(items: seq<T>) | Err(err: Error)

  /** The answer of a paginator: the pages `Next` delivered, in order, and then the
      error `Err()` reports once `Next` has returned false, if any. */
  datatype Pages<T> = Pages(pages: seq<seq<T>>, failure: Option<Error>)

  /** The two fields of a listed object that a simple generator reads: its native id and its `Name`. */
  datatype IdName = IdName(id: string, name: string)

  /** What a generator (or a part of one) appends to `Resources`, and the error it returns. */
  datatype Run = Run(added: seq<Descriptor>, outcome: Outcome)

  /** One descriptor per listed object, in listing order, with the step's fixed
      kind, provider and allow-empty list. */
  function Describe(items: seq<IdName>, kind: string, provider: string, allowEmpty: seq<string>): (r: seq<Descriptor>)
    ensures |r| == |items|
    ensures forall k :: 0 <= k < |r| ==>
      r[k] == Descriptor(items[k].id, items[k].name, kind, provider, allowEmpty)
  {
    if items == [] then []
    else
      var last := items[|items| - 1];
      Describe(items[..|items| - 1], kind, provider, allowEmpty)
        + [Descriptor(last.id, last.name, kind, provider, allowEmpty)]
  }

  /** A listing of objects turned into the listing of their descriptors; an error stays the same error. */
  function DescribeListing(l: Listing<IdName>, kind: string, provider: string, allowEmpty: seq<string>): Listing<Descriptor>
  {
    match l
    case Err(e) => Err(e)
    case Ok(items) => Ok(Describe(items, kind, provider, allowEmpty))
  }

  /** Running a sequence of enumeration steps in order, where each step either
      appends the descriptors it lists or fails and appends nothing: the first
      failure is returned and no later step runs. Defined on the last step so
      that it follows a loop over a prefix of the steps. */
  function FailFast(steps: seq<Listing<Descriptor>>): Run
  {
    if steps == [] then Run([], Nil)
    else
      var prev := FailFast(steps[..|steps| - 1]);
      if prev.outcome.Fail? then prev
      else
        match steps[|steps| - 1]
        case Err(e) => Run(prev.added, Fail(e))
        case Ok(ds) => Run(prev.added + ds, Nil)
  }

  /** The objects a listing holds: none when it failed. */
  function Items<T>(l: Listing<T>): seq<T>
  {
    if l.Ok? then l.items else []
  }

  /** Reference definition: the descriptors of all successful steps, concatenated in order. */
  function Flatten(steps: seq<Listing<Descriptor>>): seq<Descriptor>
  {
    if steps == [] then [] else Items(steps[0]) + Flatten(steps[1..])
  }

  /** The number of objects the successful listings hold together. */
  function ItemCount<T>(ls: seq<Listing<T>>): nat
  {
    if ls == [] then 0 else |Items(ls[0])| + ItemCount(ls[1..])
  }

  lemma {:induction false} FlattenSnoc(steps: seq<Listing<Descriptor>>, last: Listing<Descriptor>)
    ensures Flatten(steps + [last]) == Flatten(steps) + Items(last)
  {
    var s := steps + [last];
    if steps == [] {
      assert s == [last] && s[1..] == [];
    } else {
      assert s[0] == steps[0] && s[1..] == steps[1..] + [last];
      FlattenSnoc(steps[1..], last);
    }
  }

  /** All the descriptors appended come in one batch per step, so the total is the number of objects listed. */
  lemma {:induction false} FlattenLength(steps: seq<Listing<Descriptor>>)
    ensures |Flatten(steps)| == ItemCount(steps)
  {
    if steps != [] {
      FlattenLength(steps[1..]);
    }
  }

  /** Once a prefix of the steps has failed, the later steps change nothing: they are not run. */
  lemma {:induction false} FailFastStaysFailed(steps: seq<Listing<Descriptor>>, k: nat)
    requires k <= |steps|
    requires FailFast(steps[..k]).outcome.Fail?
    ensures FailFast(steps) == FailFast(steps[..k])
    decreases |steps|
  {
    if k < |steps| {
      var init := steps[..|steps| - 1];
      assert init[..k] == steps[..k];
      FailFastStaysFailed(init, k);
    } else {
      assert steps[..k] == steps;
    }
  }

  /** One more step after a successful prefix: it appends its descriptors, or fails with its error and appends nothing. */
  lemma FailFastNext(steps: seq<Listing<Descriptor>>, i: nat)
    requires i < |steps|
    requires FailFast(steps[..i]).outcome == Nil
    ensures FailFast(steps[..i + 1]) == Run(FailFast(steps[..i]).added + Items(steps[i]),
      if steps[i].Err? then Fail(steps[i].err) else Nil)
  {
    assert steps[..i + 1][..i] == steps[..i];
  }

  /** The same step seen from a loop that appends to a list of resources. */
  lemma FailFastExtend(steps: seq<Listing<Descriptor>>, i: nat, base: seq<Descriptor>,
                       before: seq<Descriptor>, after: seq<Descriptor>)
    requires i < |steps|
    requires FailFast(steps[..i]).outcome == Nil
    requires before == base + FailFast(steps[..i]).added
    requires after == before + Items(steps[i])
    ensures after == base + FailFast(steps[..i + 1]).added
    ensures FailFast(steps[..i + 1]).outcome == if steps[i].Err? then Fail(steps[i].err) else Nil
  {
    FailFastNext(steps, i);
  }

  /** When every step succeeds, the run succeeds and appends every step's descriptors, in step order. */
  lemma {:induction false} FailFastAllOk(steps: seq<Listing<Descriptor>>)
    requires forall k :: 0 <= k < |steps| ==> steps[k].Ok?
    ensures FailFast(steps) == Run(Flatten(steps), Nil)
    decreases |steps|
  {
    if steps != [] {
      var init := steps[..|steps| - 1];
      FailFastAllOk(init);
      FlattenSnoc(init, steps[|steps| - 1]);
      assert init + [steps[|steps| - 1]] == steps;
    }
  }

  /** When step k is the first to fail, the run returns that step's error
      unchanged, and what it appended is exactly the descriptors of the steps
      before k: the failing step adds nothing and no later step runs. */
  lemma {:induction false} FailFastFirstError(steps: seq<Listing<Descriptor>>, k: nat, e: Error)
    requires k < |steps|
    requires forall j :: 0 <= j < k ==> steps[j].Ok?
    requires steps[k] == Err(e)
    ensures FailFast(steps) == Run(Flatten(steps[..k]), Fail(e))
  {
    var upTo := steps[..k + 1];
    assert upTo[..k] == steps[..k];
    FailFastAllOk(steps[..k]);
    assert FailFast(upTo) == Run(Flatten(steps[..k]), Fail(e));
    FailFastStaysFailed(steps, k + 1);
  }

  /** The run succeeds exactly when every step succeeds; when it fails, the error is one a step reported. */
  lemma {:induction false} FailFastOutcome(steps: seq<Listing<Descriptor>>)
    ensures FailFast(steps).outcome == Nil <==> forall k :: 0 <= k < |steps| ==> steps[k].Ok?
    ensures FailFast(steps).outcome.Fail? ==>
      exists k :: 0 <= k < |steps| && steps[k] == Err(FailFast(steps).outcome.err)
    decreases |steps|
  {
    if steps != [] {
      var init := steps[..|steps| - 1];
      FailFastOutcome(init);
      if FailFast(init).outcome.Fail? {
        var k :| 0 <= k < |init| && init[k] == Err(FailFast(init).outcome.err);
        assert steps[k] == init[k];
      } else {
        assert forall j :: 0 <= j < |init| ==> steps[j] == init[j];
      }
    }
  }

  /** Every descriptor of the flattened steps comes from one successful step. */
  lemma {:induction false} FlattenMember(steps: seq<Listing<Descriptor>>, d: Descriptor) returns (j: nat)
    requires d in Flatten(steps)
    ensures j < |steps| && steps[j].Ok? && d in steps[j].items
  {
    if d in Items(steps[0]) {
      j := 0;
    } else {
      var i := FlattenMember(steps[1..], d);
      j := i + 1;
    }
  }

  /** Every descriptor a fail-fast run appends comes from one successful step. */
  lemma {:induction false} FailFastMember(steps: seq<Listing<Descriptor>>, d: Descriptor) returns (j: nat)
    requires d in FailFast(steps).added
    ensures j < |steps| && steps[j].Ok? && d in steps[j].items
    decreases |steps|
  {
    var init := steps[..|steps| - 1];
    if d in FailFast(init).added {
      j := FailFastMember(init, d);
      assert steps[j] == init[j];
    } else {
      j := |steps| - 1;
    }
  }
}
