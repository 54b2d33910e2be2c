/**
 * The provider widget (components/provider-breakdown.tsx): a `reduce` that
 * creates a zero entry for each provider the first time it occurs and then
 * increments its resource count and cost, and the provider labels.
 */
module ProviderBreakdown {
  import opened Collections
  import opened Text
  import opened Grouping
  import opened ResourceContext

  function ProviderOf(r: Resource): CloudProvider {
    r.provider
  }

  function ResourceCost(r: Resource): real {
    r.cost
  }

  /** One accumulator entry `acc[provider] = { count, cost }`. */
  datatype ProviderStat = ProviderStat(provider: CloudProvider, count: nat, cost: real)

  /** The number of resources of provider `p`. */
  function ProviderCount(rs: seq<Resource>, p: CloudProvider): nat {
    if rs == [] then 0
    else ProviderCount(rs[..|rs| - 1], p) + (if rs[|rs| - 1].provider == p then 1 else 0)
  }

  /** The total cost of the resources of provider `p`. */
  function ProviderCost(rs: seq<Resource>, p: CloudProvider): real {
    if rs == [] then 0.0
    else ProviderCost(rs[..|rs| - 1], p) + (if rs[|rs| - 1].provider == p then rs[|rs| - 1].cost else 0.0)
  }

  lemma ProviderTotalsSnoc(rs: seq<Resource>, r: Resource, p: CloudProvider)
    ensures ProviderCount(rs + [r], p) == ProviderCount(rs, p) + (if r.provider == p then 1 else 0)
    ensures ProviderCost(rs + [r], p) == ProviderCost(rs, p) + (if r.provider == p then r.cost else 0.0)
  {
    assert (rs + [r])[..|rs|] == rs;
  }

  /** The count is the sum of ones over the provider's group. */
  lemma {:induction false} ProviderCountIsUnitSum(rs: seq<Resource>, p: CloudProvider)
    ensures ProviderCount(rs, p) as real == KeySum(ProviderOf, Unit, rs, p)
  {
    if rs != [] {
      var init, last := rs[..|rs| - 1], rs[|rs| - 1];
      assert rs == init + [last];
      ProviderCountIsUnitSum(init, p);
      KeySumSnoc(ProviderOf, Unit, init, last, p);
    }
  }

  /** The count is the size of the provider's group. */
  lemma ProviderCountIsGroupSize(rs: seq<Resource>, p: CloudProvider)
    ensures ProviderCount(rs, p) == |Group(ProviderOf, rs, p)|
  {
    ProviderCountIsUnitSum(rs, p);
    GroupSizeIsUnitSum(ProviderOf, rs, p);
  }

  /** The cost is the sum of the costs in the provider's group. */
  lemma {:induction false} ProviderCostIsKeySum(rs: seq<Resource>, p: CloudProvider)
    ensures ProviderCost(rs, p) == KeySum(ProviderOf, ResourceCost, rs, p)
  {
    if rs != [] {
      var init, last := rs[..|rs| - 1], rs[|rs| - 1];
      assert rs == init + [last];
      ProviderCostIsKeySum(init, p);
      KeySumSnoc(ProviderOf, ResourceCost, init, last, p);
    }
  }

  /** The entries for the providers `ps`, each with its count and cost over `rs`. */
  function EntriesFor(rs: seq<Resource>, ps: seq<CloudProvider>): (r: seq<ProviderStat>)
    ensures |r| == |ps|
    ensures forall k :: 0 <= k < |r| ==> r[k].provider == ps[k]
  {
    seq(|ps|, k requires 0 <= k < |ps| => ProviderStat(ps[k], ProviderCount(rs, ps[k]), ProviderCost(rs, ps[k])))
  }

  /** The accumulator the reduce ends with: one entry per provider present, in order of first occurrence. */
  function ProviderEntries(rs: seq<Resource>): seq<ProviderStat> {
    EntriesFor(rs, Keys(ProviderOf, rs))
  }

  /** `if (!acc[provider])`: where the provider's entry is, or -1. */
  function IndexOfProvider(acc: seq<ProviderStat>, p: CloudProvider): (j: int)
    ensures -1 <= j < |acc|
    ensures j == -1 <==> forall k :: 0 <= k < |acc| ==> acc[k].provider != p
    ensures j >= 0 ==> acc[j].provider == p
  {
    if acc == [] then -1
    else if acc[|acc| - 1].provider == p then |acc| - 1
    else IndexOfProvider(acc[..|acc| - 1], p)
  }

  /** The reduce step: a zero entry when the provider is new, then one more resource and its cost. */
  function AddResource(acc: seq<ProviderStat>, r: Resource): seq<ProviderStat> {
    var j := IndexOfProvider(acc, r.provider);
    var acc' := if j == -1 then acc + [ProviderStat(r.provider, 0, 0.0)] else acc;
    var i := if j == -1 then |acc| else j;
    acc'[i := ProviderStat(r.provider, acc'[i].count + 1, acc'[i].cost + r.cost)]
  }

  lemma EntriesForOtherProviders(rs: seq<Resource>, r: Resource, ps: seq<CloudProvider>)
    requires r.provider !in ps
    ensures EntriesFor(rs + [r], ps) == EntriesFor(rs, ps)
  {
    forall k | 0 <= k < |ps| ensures EntriesFor(rs + [r], ps)[k] == EntriesFor(rs, ps)[k] {
      ProviderTotalsSnoc(rs, r, ps[k]);
    }
  }

  lemma EntriesForOwnProvider(rs: seq<Resource>, r: Resource, ps: seq<CloudProvider>, j: nat)
    requires Distinct(ps) && j < |ps| && ps[j] == r.provider
    ensures EntriesFor(rs + [r], ps) ==
      EntriesFor(rs, ps)[j := ProviderStat(r.provider, EntriesFor(rs, ps)[j].count + 1, EntriesFor(rs, ps)[j].cost + r.cost)]
  {
    var es, next := EntriesFor(rs, ps), EntriesFor(rs + [r], ps);
    var want := es[j := ProviderStat(r.provider, es[j].count + 1, es[j].cost + r.cost)];
    forall k | 0 <= k < |ps| ensures next[k] == want[k] {
      ProviderTotalsSnoc(rs, r, ps[k]);
      if k != j {
        assert ps[k] != r.provider;
      }
    }
    assert next == want;
  }

  lemma IndexInEntries(rs: seq<Resource>, ps: seq<CloudProvider>, p: CloudProvider)
    ensures IndexOfProvider(EntriesFor(rs, ps), p) == -1 <==> p !in ps
  {
    if p in ps {
      var k :| 0 <= k < |ps| && ps[k] == p;
      assert EntriesFor(rs, ps)[k].provider == p;
    }
  }

  lemma ProviderEntriesSnocNew(rs: seq<Resource>, r: Resource)
    requires r.provider !in Keys(ProviderOf, rs)
    ensures ProviderEntries(rs + [r]) == ProviderEntries(rs) + [ProviderStat(r.provider, 1, 0.0 + r.cost)]
  {
    var ps, p := Keys(ProviderOf, rs), ProviderOf(r);
    KeysSnoc(ProviderOf, rs, r);
    EntriesForOtherProviders(rs, r, ps);
    AbsentKeyEmptyGroup(ProviderOf, rs, p);
    ProviderCountIsGroupSize(rs, p);
    ProviderCostIsKeySum(rs, p);
    ProviderTotalsSnoc(rs, r, p);
    var es := EntriesFor(rs + [r], ps);
    assert EntriesFor(rs + [r], ps + [p]) == es + [ProviderStat(p, ProviderCount(rs + [r], p), ProviderCost(rs + [r], p))];
  }

  lemma ProviderEntriesSnocKnown(rs: seq<Resource>, r: Resource, j: nat)
    requires j < |Keys(ProviderOf, rs)| && Keys(ProviderOf, rs)[j] == r.provider
    ensures var es := ProviderEntries(rs);
      ProviderEntries(rs + [r]) == es[j := ProviderStat(r.provider, es[j].count + 1, es[j].cost + r.cost)]
  {
    var ps := Keys(ProviderOf, rs);
    assert ProviderOf(r) in ps;
    KeysSnoc(ProviderOf, rs, r);
    assert Keys(ProviderOf, rs + [r]) == ps;
    assert ProviderEntries(rs + [r]) == EntriesFor(rs + [r], ps);
    assert ProviderEntries(rs) == EntriesFor(rs, ps);
    EntriesForOwnProvider(rs, r, ps, j);
  }

  lemma AddResourceNew(acc: seq<ProviderStat>, r: Resource)
    requires IndexOfProvider(acc, r.provider) == -1
    ensures AddResource(acc, r) == acc + [ProviderStat(r.provider, 1, 0.0 + r.cost)]
  {
  }

  lemma AddResourceKnown(acc: seq<ProviderStat>, r: Resource)
    requires IndexOfProvider(acc, r.provider) != -1
    ensures var j := IndexOfProvider(acc, r.provider);
      AddResource(acc, r) == acc[j := ProviderStat(r.provider, acc[j].count + 1, acc[j].cost + r.cost)]
  {
  }

  /** Folding one more resource into the accumulator gives the accumulator of the longer list. */
  lemma ProviderEntriesSnoc(rs: seq<Resource>, r: Resource)
    ensures ProviderEntries(rs + [r]) == AddResource(ProviderEntries(rs), r)
  {
    IndexInEntries(rs, Keys(ProviderOf, rs), r.provider);
    if r.provider in Keys(ProviderOf, rs) {
      FoldKnownProvider(rs, r);
    } else {
      ProviderEntriesSnocNew(rs, r);
      AddResourceNew(ProviderEntries(rs), r);
    }
  }

  /** The case of a provider seen before: its entry is updated in place. */
  lemma FoldKnownProvider(rs: seq<Resource>, r: Resource)
    requires r.provider in Keys(ProviderOf, rs)
    ensures ProviderEntries(rs + [r]) == AddResource(ProviderEntries(rs), r)
  {
    var acc, ps := ProviderEntries(rs), Keys(ProviderOf, rs);
    IndexInEntries(rs, ps, r.provider);
    var j := IndexOfProvider(acc, r.provider);
    assert ps[j] == acc[j].provider == r.provider;
    ProviderEntriesSnocKnown(rs, r, j);
    AddResourceKnown(acc, r);
  }

  /**
   * `resources.reduce(...)`: create `{ count: 0, cost: 0 }` for a provider
   * not seen yet, then `count += 1` and `cost += resource.cost`.
   */
  method ProviderStats(rs: seq<Resource>) returns (acc: seq<ProviderStat>)
    ensures acc == ProviderEntries(rs)
  {
    acc := [];
    for i := 0 to |rs|
      invariant acc == ProviderEntries(rs[..i])
    {
      var r := rs[i];
      assert rs[..i + 1] == rs[..i] + [r];
      ProviderEntriesSnoc(rs[..i], r);
      var j := IndexOfProvider(acc, r.provider);
      if j == -1 {
        acc := acc + [ProviderStat(r.provider, 0, 0.0)];
        j := |acc| - 1;
      }
      acc := acc[j := ProviderStat(r.provider, acc[j].count + 1, acc[j].cost + r.cost)];
    }
    assert rs[..|rs|] == rs;
  }

  // ---------------------------------------------------------------------------
  // What the entries mean

  function CountOf(e: ProviderStat): real {
    e.count as real
  }

  function CostOf(e: ProviderStat): real {
    e.cost
  }

  /** Exactly the providers present get an entry. */
  lemma EntryIffPresent(rs: seq<Resource>, p: CloudProvider)
    ensures (exists k :: 0 <= k < |ProviderEntries(rs)| && ProviderEntries(rs)[k].provider == p) <==>
      exists i :: 0 <= i < |rs| && rs[i].provider == p
  {
    var es, ps := ProviderEntries(rs), Keys(ProviderOf, rs);
    if exists i :: 0 <= i < |rs| && rs[i].provider == p {
      var i :| 0 <= i < |rs| && rs[i].provider == p;
      assert ProviderOf(rs[i]) == p;
      assert p in ps;
      var k :| 0 <= k < |ps| && ps[k] == p;
      assert es[k].provider == p;
    }
    if exists k :: 0 <= k < |es| && es[k].provider == p {
      var k :| 0 <= k < |es| && es[k].provider == p;
      assert ps[k] in ps;
    }
  }

  /** Each entry holds its provider's resource count, at least one, and their total cost. */
  lemma EntryTotals(rs: seq<Resource>, k: nat)
    requires k < |ProviderEntries(rs)|
    ensures var e := ProviderEntries(rs)[k];
      && e.count == |Group(ProviderOf, rs, e.provider)|
      && e.count >= 1
      && e.cost == KeySum(ProviderOf, ResourceCost, rs, e.provider)
  {
    var ps := Keys(ProviderOf, rs);
    ProviderCountIsGroupSize(rs, ps[k]);
    ProviderCostIsKeySum(rs, ps[k]);
    KeysHaveMembers(ProviderOf, rs, ps[k]);
  }

  /** The counts add up to the number of resources (`totalResources`). */
  lemma CountsSumToTotal(rs: seq<Resource>)
    ensures SumOf(CountOf, ProviderEntries(rs)) == |rs| as real
  {
    var es, ps := ProviderEntries(rs), Keys(ProviderOf, rs);
    forall k | 0 <= k < |es| ensures CountOf(es[k]) == KeySum(ProviderOf, Unit, rs, ps[k]) {
      ProviderCountIsUnitSum(rs, ps[k]);
    }
    EntriesSumToKeySums(CountOf, es, ProviderOf, Unit, ps, rs);
    GroupsPartition(ProviderOf, Unit, rs);
    SumOfUnit(rs);
  }

  /** The per-provider costs add up to the total cost. */
  lemma CostsSumToTotal(rs: seq<Resource>)
    ensures SumOf(CostOf, ProviderEntries(rs)) == SumOf(ResourceCost, rs)
  {
    var es, ps := ProviderEntries(rs), Keys(ProviderOf, rs);
    forall k | 0 <= k < |es| ensures CostOf(es[k]) == KeySum(ProviderOf, ResourceCost, rs, ps[k]) {
      ProviderCostIsKeySum(rs, ps[k]);
    }
    EntriesSumToKeySums(CostOf, es, ProviderOf, ResourceCost, ps, rs);
    GroupsPartition(ProviderOf, ResourceCost, rs);
  }

  // ---------------------------------------------------------------------------
  // `providerConfig`

  function ProviderName(p: CloudProvider): string {
    match p
    case Aws => "Amazon Web Services"
    case Gcp => "Google Cloud Platform"
    case Azure => "Microsoft Azure"
  }

  function ShortName(p: CloudProvider): string {
    match p
    case Aws => "AWS"
    case Gcp => "GCP"
    case Azure => "Azure"
  }

  /** `bg-chart-1` .. `bg-chart-3`: the chart colour of each provider. */
  function ChartColour(p: CloudProvider): (c: nat)
    ensures 1 <= c <= 3
  {
    match p
    case Aws => 1
    case Gcp => 2
    case Azure => 3
  }

  /** Every provider has its own name, short name and colour. */
  lemma ConfigDistinct(p: CloudProvider, q: CloudProvider)
    requires p != q
    ensures ProviderName(p) != ProviderName(q)
    ensures ShortName(p) != ShortName(q)
    ensures ChartColour(p) != ChartColour(q)
  {
  }
}
