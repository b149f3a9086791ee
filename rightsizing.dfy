/** The rightsizing helpers of the cost optimizer: the downsizing
    recommendation for an instance type and the monthly savings estimate. */
module Rightsizing {
  import opened Wrappers
  import opened Text
  import opened Lists

  /** `size_map`, in its insertion order: each size and the next smaller one. */
  const SizeMap: seq<(string, string)> := [
    ("xlarge", "large"), ("large", "medium"), ("medium", "small"), ("2xlarge", "xlarge"), ("4xlarge", "2xlarge")
  ]

  /** Every size key is non-empty (so `str.replace` is a plain replacement). */
  predicate ValidSizeMap(m: seq<(string, string)>)
  {
    forall k | 0 <= k < |m| :: |m[k].0| > 0
  }

  /** What `_get_rightsizing_recommendation` recommends: a downsized instance
      type, or the generic advice to move to t3.micro or t3.small. */
  datatype Recommendation = Downsize(instanceType: string) | SmallerFamily

  /** Index of the first size key that occurs in the instance type. */
  function SizeKeyMatch(m: seq<(string, string)>, instanceType: string): Option<nat>
  {
    FirstMatch(m, (e: (string, string)) => Contains(instanceType, e.0))
  }

  /** The first size key found in the type is replaced, at every occurrence,
      by its smaller size; without any size key the generic advice is given. */
  function Recommend(m: seq<(string, string)>, instanceType: string): (r: Recommendation)
    requires ValidSizeMap(m)
    ensures r.SmallerFamily? <==> forall k | 0 <= k < |m| :: !Contains(instanceType, m[k].0)
    ensures r.Downsize? ==>
      exists k | 0 <= k < |m| ::
        && Contains(instanceType, m[k].0)
        && (forall j | 0 <= j < k :: !Contains(instanceType, m[j].0))
        && r.instanceType == ReplaceAll(instanceType, m[k].0, m[k].1)
  {
    match SizeKeyMatch(m, instanceType)
    case Some(k) => Downsize(ReplaceAll(instanceType, m[k].0, m[k].1))
    case None => SmallerFamily
  }

  lemma LargeInXlarge()
    ensures Contains("xlarge", "large")
  {
    assert OccursAt("xlarge", "large", 1);
  }

  lemma XlargeInDoubleSizes()
    ensures Contains("2xlarge", "xlarge") && Contains("4xlarge", "xlarge")
  {
    assert OccursAt("2xlarge", "xlarge", 1);
    assert OccursAt("4xlarge", "xlarge", 1);
  }

  /** The '2xlarge' and '4xlarge' entries never fire: a type containing them
      also contains 'xlarge', which is tested first. */
  lemma DoubleSizesNeverFire(instanceType: string)
    ensures SizeKeyMatch(SizeMap, instanceType).Some? ==> SizeKeyMatch(SizeMap, instanceType).value < 3
  {
    XlargeInDoubleSizes();
    if Contains(instanceType, "2xlarge") {
      ContainsTransitive(instanceType, "2xlarge", "xlarge");
    }
    if Contains(instanceType, "4xlarge") {
      ContainsTransitive(instanceType, "4xlarge", "xlarge");
    }
  }

  /** So m5.2xlarge is "downsized" to m5.2large, dropping the 'x'. */
  lemma TwoXlargeBecomesTwoLarge()
    ensures Recommend(SizeMap, "m5.2xlarge") == Downsize("m5.2large")
  {
    var t, p := "m5.2xlarge", "xlarge";
    assert OccursAt(t, p, 4);
    assert SizeKeyMatch(SizeMap, t) == Some(0);
    forall j | 0 <= j < 4
      ensures !OccursAt(t, p, j)
    {
      assert t[j] != p[0];
      assert t[j..j + |p|][0] == t[j];
    }
    assert !Contains(t[10..], p);
    ReplaceAllOnce(t, p, "large", 4);
    assert t[..4] + "large" + t[10..] == "m5.2large";
  }

  /** `savings_per_instance`, in its insertion order: monthly dollars per day. */
  const SavingsPerInstance: seq<(string, int)> := [("large", 50), ("xlarge", 100), ("2xlarge", 200), ("4xlarge", 400)]

  const DaysPerMonth: int := 30

  /** What one instance adds to the total: the saving of the first size key in
      its type, times 30; nothing when no key occurs. */
  function InstanceSaving(table: seq<(string, int)>, instanceType: string): int
  {
    match FirstMatch(table, (e: (string, int)) => Contains(instanceType, e.0))
    case Some(k) => table[k].1 * DaysPerMonth
    case None => 0
  }

  /** The total over a list of instance types. */
  function Savings(table: seq<(string, int)>, types: seq<string>): int
  {
    if |types| == 0 then 0
    else Savings(table, types[..|types| - 1]) + InstanceSaving(table, types[|types| - 1])
  }

  /** `_calculate_rightsizing_savings`: the accumulator loop over the
      instances with the inner first-match loop and its `break`. */
  method CalculateRightsizingSavings(table: seq<(string, int)>, types: seq<string>) returns (total: int)
    ensures total == Savings(table, types)
  {
    total := 0;
    for i := 0 to |types|
      invariant total == Savings(table, types[..i])
    {
      var instanceType := types[i];
      assert types[..i + 1][..i] == types[..i];
      for j := 0 to |table|
        invariant forall q :: 0 <= q < j ==> !Contains(instanceType, table[q].0)
        invariant total == Savings(table, types[..i])
      {
        if Contains(instanceType, table[j].0) {
          total := total + table[j].1 * DaysPerMonth;
          break;
        }
      }
    }
    assert types[..|types|] == types;
  }

  /** The total is additive over concatenation of instance lists. */
  lemma {:induction false} SavingsAppend(table: seq<(string, int)>, a: seq<string>, b: seq<string>)
    ensures Savings(table, a + b) == Savings(table, a) + Savings(table, b)
    decreases |b|
  {
    if |b| > 0 {
      var b' := b[..|b| - 1];
      assert (a + b)[..|a + b| - 1] == a + b';
      SavingsAppend(table, a, b');
    } else {
      assert a + b == a;
    }
  }

  /** With non-negative savings per size the total is never negative. */
  lemma {:induction false} SavingsNonNegative(table: seq<(string, int)>, types: seq<string>)
    requires forall k | 0 <= k < |table| :: table[k].1 >= 0
    ensures Savings(table, types) >= 0
    decreases |types|
  {
    if |types| > 0 {
      SavingsNonNegative(table, types[..|types| - 1]);
    }
  }

  /** With the source's table 'large' is tested first and occurs in every
      other key, so each instance saves 50 * 30 = 1500 or nothing. */
  lemma SourceInstanceSaving(instanceType: string)
    ensures InstanceSaving(SavingsPerInstance, instanceType) == if Contains(instanceType, "large") then 1500 else 0
  {
    LargeInXlarge();
    XlargeInDoubleSizes();
    if Contains(instanceType, "xlarge") {
      ContainsTransitive(instanceType, "xlarge", "large");
    }
    if Contains(instanceType, "2xlarge") {
      ContainsTransitive(instanceType, "2xlarge", "xlarge");
      ContainsTransitive(instanceType, "xlarge", "large");
    }
    if Contains(instanceType, "4xlarge") {
      ContainsTransitive(instanceType, "4xlarge", "xlarge");
      ContainsTransitive(instanceType, "xlarge", "large");
    }
  }

  /** Number of instance types containing 'large'. */
  function CountLarge(types: seq<string>): nat
  {
    if |types| == 0 then 0
    else CountLarge(types[..|types| - 1]) + if Contains(types[|types| - 1], "large") then 1 else 0
  }

  /** The source's total is 1500 per instance whose type contains 'large'. */
  lemma {:induction false} SourceSavings(types: seq<string>)
    ensures Savings(SavingsPerInstance, types) == 1500 * CountLarge(types)
    decreases |types|
  {
    if |types| > 0 {
      SourceSavings(types[..|types| - 1]);
      SourceInstanceSaving(types[|types| - 1]);
    }
  }
}
