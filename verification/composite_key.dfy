/** The pieces of the positional composite key of a stack-set instance: reading an
    optional string field, and splitting a key back into its comma-separated slots. */
module CompositeKey {
  import opened Discovery

  /** The delimiter between the slots of a composite key. */
  const Delimiter: char := ','

  /** `aws.StringValue`: the string a field points to, or "" when the field is nil. */
  function StringValue(p: Option<string>): string
  {
    match p
    case Some(s) => s
    case None => ""
  }

  /** Splitting a string at every delimiter, as Go's `strings.Split(s, ",")` does:
      n delimiters give n + 1 slots, and an empty string gives one empty slot.
      The contract below only bounds the result; `SplitConcat` and
      `SplitUndelimited` pin it down, and `SplitJoin` is the round trip they give. */
  function Split(s: string): (r: seq<string>)
    ensures |r| >= 1
    ensures forall k :: 0 <= k < |r| ==> Delimiter !in r[k]
  {
    if s == [] then [""]
    else if s[0] == Delimiter then [""] + Split(s[1..])
    else
      var rest := Split(s[1..]);
      [[s[0]] + rest[0]] + rest[1..]
  }

  /** Splitting a join is the concatenation of splitting each side. */
  lemma {:induction false} SplitConcat(a: string, b: string)
    ensures Split(a + [Delimiter] + b) == Split(a) + Split(b)
  {
    var s := a + [Delimiter] + b;
    if a == [] {
      assert s == [Delimiter] + b;
      assert s[1..] == b;
    } else {
      assert s[0] == a[0];
      assert s[1..] == a[1..] + [Delimiter] + b;
      SplitConcat(a[1..], b);
    }
  }

  /** A string holding no delimiter splits into exactly itself. */
  lemma {:induction false} SplitUndelimited(a: string)
    requires Delimiter !in a
    ensures Split(a) == [a]
  {
    if a != [] {
      assert Delimiter !in a[1..] by {
        forall k | 0 <= k < |a[1..]| ensures a[1..][k] != Delimiter {
          assert a[1..][k] == a[k + 1];
        }
      }
      SplitUndelimited(a[1..]);
      assert [a[0]] + a[1..] == a;
    }
  }

  /** Joining two delimiter-free strings with the delimiter and splitting gives them back. */
  lemma SplitJoin(a: string, b: string)
    requires Delimiter !in a && Delimiter !in b
    ensures Split(a + [Delimiter] + b) == [a, b]
  {
    SplitConcat(a, b);
    SplitUndelimited(a);
    SplitUndelimited(b);
  }
}
