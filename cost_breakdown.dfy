/**
 * The cost-by-type chart (components/cost-breakdown.tsx): a `reduce` that
 * adds each resource's cost into a per-type accumulator, then one bar per
 * type, labelled with the capitalised type and sorted by cost, highest first.
 */
module CostBreakdown {
  import opened Collections
  import opened Text
  import opened Grouping
  import opened ResourceContext

  function TypeOf(r: Resource): ResourceType {
    r.resourceType
  }

  function CostOf(r: Resource): real {
    r.cost
  }

  /** One accumulator entry `acc[type] = cost`. */
  datatype TypeCost = TypeCost(resourceType: ResourceType, cost: real)

  /** The total cost of the resources of type `t`. */
  function TypeTotal(rs: seq<Resource>, t: ResourceType): real {
    if rs == [] then 0.0
    else TypeTotal(rs[..|rs| - 1], t) + (if rs[|rs| - 1].resourceType == t then rs[|rs| - 1].cost else 0.0)
  }

  lemma TypeTotalSnoc(rs: seq<Resource>, r: Resource, t: ResourceType)
    ensures TypeTotal(rs + [r], t) == TypeTotal(rs, t) + (if r.resourceType == t then r.cost else 0.0)
  {
    assert (rs + [r])[..|rs|] == rs;
  }

  /** The per-type total is the sum of the costs in the type's group. */
  lemma {:induction false} TypeTotalIsKeySum(rs: seq<Resource>, t: ResourceType)
    ensures TypeTotal(rs, t) == KeySum(TypeOf, CostOf, rs, t)
  {
    if rs != [] {
      var init, last := rs[..|rs| - 1], rs[|rs| - 1];
      assert rs == init + [last];
      TypeTotalIsKeySum(init, t);
      KeySumSnoc(TypeOf, CostOf, init, last, t);
    }
  }

  /** The entries for the types `ts`, each with its total over `rs`. */
  function EntriesFor(rs: seq<Resource>, ts: seq<ResourceType>): (r: seq<TypeCost>)
    ensures |r| == |ts|
    ensures forall k :: 0 <= k < |r| ==> r[k].resourceType == ts[k]
  {
    seq(|ts|, k requires 0 <= k < |ts| => TypeCost(ts[k], TypeTotal(rs, ts[k])))
  }

  /** The accumulator the reduce ends with: each type present once, in order of first occurrence, with its total. */
  function CostEntries(rs: seq<Resource>): seq<TypeCost> {
    EntriesFor(rs, Keys(TypeOf, rs))
  }

  /** Entry `k` is the `k`-th type to occur, with the total cost of its resources. */
  lemma CostEntriesMeaning(rs: seq<Resource>)
    ensures |CostEntries(rs)| == |Keys(TypeOf, rs)|
    ensures forall k :: 0 <= k < |CostEntries(rs)| ==>
      CostEntries(rs)[k] == TypeCost(Keys(TypeOf, rs)[k], KeySum(TypeOf, CostOf, rs, Keys(TypeOf, rs)[k]))
    ensures forall t :: t in Keys(TypeOf, rs) <==> exists i :: 0 <= i < |rs| && rs[i].resourceType == t
  {
    forall k | 0 <= k < |Keys(TypeOf, rs)|
      ensures CostEntries(rs)[k] == TypeCost(Keys(TypeOf, rs)[k], KeySum(TypeOf, CostOf, rs, Keys(TypeOf, rs)[k]))
    {
      TypeTotalIsKeySum(rs, Keys(TypeOf, rs)[k]);
    }
  }

  /** The lookup `acc[type]`: where the type's entry is, or -1. */
  function IndexOfType(acc: seq<TypeCost>, t: ResourceType): (j: int)
    ensures -1 <= j < |acc|
    ensures j == -1 <==> forall k :: 0 <= k < |acc| ==> acc[k].resourceType != t
    ensures j >= 0 ==> acc[j].resourceType == t
  {
    if acc == [] then -1
    else if acc[|acc| - 1].resourceType == t then |acc| - 1
    else IndexOfType(acc[..|acc| - 1], t)
  }

  /** Over types other than its own, one more resource changes no entry. */
  lemma EntriesForOtherTypes(rs: seq<Resource>, r: Resource, ts: seq<ResourceType>)
    requires r.resourceType !in ts
    ensures EntriesFor(rs + [r], ts) == EntriesFor(rs, ts)
  {
    forall k | 0 <= k < |ts| ensures EntriesFor(rs + [r], ts)[k] == EntriesFor(rs, ts)[k] {
      TypeTotalSnoc(rs, r, ts[k]);
    }
  }

  /** Over distinct types that include its own at `j`, one more resource adds its cost to entry `j`. */
  lemma EntriesForOwnType(rs: seq<Resource>, r: Resource, ts: seq<ResourceType>, j: nat)
    requires Distinct(ts) && j < |ts| && ts[j] == r.resourceType
    ensures EntriesFor(rs + [r], ts) == EntriesFor(rs, ts)[j := TypeCost(r.resourceType, EntriesFor(rs, ts)[j].cost + r.cost)]
  {
    var es, next := EntriesFor(rs, ts), EntriesFor(rs + [r], ts);
    var want := es[j := TypeCost(r.resourceType, es[j].cost + r.cost)];
    forall k | 0 <= k < |ts| ensures next[k] == want[k] {
      TypeTotalSnoc(rs, r, ts[k]);
      if k == j {
        assert next[k].cost == es[k].cost + r.cost;
      } else {
        assert ts[k] != TypeOf(r);
        assert next[k] == es[k];
      }
    }
    assert next == want;
  }

  /** The lookup finds a type's entry exactly when the type is among `ts`. */
  lemma IndexInEntries(rs: seq<Resource>, ts: seq<ResourceType>, t: ResourceType)
    ensures IndexOfType(EntriesFor(rs, ts), t) == -1 <==> t !in ts
  {
    var es := EntriesFor(rs, ts);
    if t in ts {
      var k :| 0 <= k < |ts| && ts[k] == t;
      assert es[k].resourceType == t;
    }
  }

  /** A resource of a type not seen yet appends that type's entry. */
  lemma CostEntriesSnocNew(rs: seq<Resource>, r: Resource)
    requires r.resourceType !in Keys(TypeOf, rs)
    ensures CostEntries(rs + [r]) == CostEntries(rs) + [TypeCost(r.resourceType, 0.0 + r.cost)]
  {
    var ks := Keys(TypeOf, rs);
    KeysSnoc(TypeOf, rs, r);
    EntriesForOtherTypes(rs, r, ks);
    AbsentKeyEmptyGroup(TypeOf, rs, TypeOf(r));
    TypeTotalIsKeySum(rs, TypeOf(r));
    TypeTotalSnoc(rs, r, TypeOf(r));
    var es, t := EntriesFor(rs + [r], ks), TypeOf(r);
    assert EntriesFor(rs + [r], ks + [t]) == es + [TypeCost(t, TypeTotal(rs + [r], t))];
  }

  /** A resource of a type already seen adds its cost to that type's entry. */
  lemma CostEntriesSnocKnown(rs: seq<Resource>, r: Resource, j: nat)
    requires j < |Keys(TypeOf, rs)| && Keys(TypeOf, rs)[j] == r.resourceType
    ensures CostEntries(rs + [r]) == CostEntries(rs)[j := TypeCost(r.resourceType, CostEntries(rs)[j].cost + r.cost)]
  {
    var ks := Keys(TypeOf, rs);
    assert TypeOf(r) in ks;
    KeysSnoc(TypeOf, rs, r);
    assert Keys(TypeOf, rs + [r]) == ks;
    assert CostEntries(rs + [r]) == EntriesFor(rs + [r], ks);
    assert CostEntries(rs) == EntriesFor(rs, ks);
    EntriesForOwnType(rs, r, ks, j);
  }

  /** `acc[type] = (acc[type] || 0) + cost` on the accumulator as a list of entries. */
  function AddCost(acc: seq<TypeCost>, r: Resource): seq<TypeCost> {
    var j := IndexOfType(acc, r.resourceType);
    if j == -1 then acc + [TypeCost(r.resourceType, 0.0 + r.cost)]
    else acc[j := TypeCost(r.resourceType, acc[j].cost + r.cost)]
  }

  /** Folding one more resource into the accumulator gives the accumulator of the longer list. */
  lemma CostEntriesSnoc(rs: seq<Resource>, r: Resource)
    ensures CostEntries(rs + [r]) == AddCost(CostEntries(rs), r)
  {
    IndexInEntries(rs, Keys(TypeOf, rs), r.resourceType);
    if r.resourceType in Keys(TypeOf, rs) {
      FoldKnownType(rs, r);
    } else {
      CostEntriesSnocNew(rs, r);
    }
  }

  /** The case of a type seen before: its entry is updated in place. */
  lemma FoldKnownType(rs: seq<Resource>, r: Resource)
    requires r.resourceType in Keys(TypeOf, rs)
    ensures CostEntries(rs + [r]) == AddCost(CostEntries(rs), r)
  {
    var j := KnownTypeIndex(rs, r);
    CostEntriesSnocKnown(rs, r, j);
    AddCostKnown(CostEntries(rs), r, j);
  }

  /** The accumulator's entry for a type seen before sits at that type's position among the keys. */
  lemma KnownTypeIndex(rs: seq<Resource>, r: Resource) returns (j: nat)
    requires r.resourceType in Keys(TypeOf, rs)
    ensures j < |Keys(TypeOf, rs)| && Keys(TypeOf, rs)[j] == r.resourceType
    ensures IndexOfType(CostEntries(rs), r.resourceType) == j
  {
    var acc, ks := CostEntries(rs), Keys(TypeOf, rs);
    IndexInEntries(rs, ks, r.resourceType);
    j := IndexOfType(acc, r.resourceType);
    assert ks[j] == acc[j].resourceType;
  }

  lemma AddCostKnown(acc: seq<TypeCost>, r: Resource, j: nat)
    requires IndexOfType(acc, r.resourceType) == j
    ensures AddCost(acc, r) == acc[j := TypeCost(r.resourceType, acc[j].cost + r.cost)]
  {
  }

  /**
   * `resources.reduce((acc, resource) => { acc[resource.type] =
   * (acc[resource.type] || 0) + resource.cost; return acc; }, {})`.
   */
  method CostByType(rs: seq<Resource>) returns (acc: seq<TypeCost>)
    ensures acc == CostEntries(rs)
  {
    acc := [];
    for i := 0 to |rs|
      invariant acc == CostEntries(rs[..i])
    {
      var r := rs[i];
      assert rs[..i + 1] == rs[..i] + [r];
      CostEntriesSnoc(rs[..i], r);
      var j := IndexOfType(acc, r.resourceType);
      if j == -1 {
        acc := acc + [TypeCost(r.resourceType, 0.0 + r.cost)];
      } else {
        acc := acc[j := TypeCost(r.resourceType, acc[j].cost + r.cost)];
      }
    }
    assert rs[..|rs|] == rs;
  }

  // ---------------------------------------------------------------------------
  // Chart data

  datatype ChartEntry = ChartEntry(labelText: string, cost: real, fill: string)

  /** `{ type: capitalised type, cost, fill: "var(--color-<type>)" }`. */
  function ChartEntryOf(tc: TypeCost): ChartEntry {
    ChartEntry(Capitalize(tc.resourceType.Tag()), tc.cost, "var(--color-" + tc.resourceType.Tag() + ")")
  }

  /** A bar is labelled with its type, first letter upper-cased, and carries the type's total. */
  lemma ChartLabel(t: ResourceType, c: real)
    ensures var e := ChartEntryOf(TypeCost(t, c));
      && |e.labelText| == |t.Tag()| && e.labelText[0] == UpperChar(t.Tag()[0])
      && e.labelText[1..] == t.Tag()[1..] && e.cost == c
    ensures ChartEntryOf(TypeCost(Compute, c)).labelText == "Compute"
  {
  }

  /** Different types get different labels. */
  lemma ChartLabelsDistinct(t: ResourceType, u: ResourceType, c: real, d: real)
    requires t != u
    ensures ChartEntryOf(TypeCost(t, c)).labelText != ChartEntryOf(TypeCost(u, d)).labelText
  {
  }

  function EntryCost(e: ChartEntry): real {
    e.cost
  }

  predicate NonIncreasing(es: seq<ChartEntry>) {
    forall i, j :: 0 <= i < j < |es| ==> es[i].cost >= es[j].cost
  }

  /** Inserts before the first entry that costs no more, so ties keep their order. */
  function InsertByCost(e: ChartEntry, es: seq<ChartEntry>): (r: seq<ChartEntry>)
    ensures multiset(r) == multiset(es) + multiset{e}
  {
    if es == [] then [e]
    else if es[0].cost <= e.cost then [e] + es
    else
      assert es == [es[0]] + es[1..];
      [es[0]] + InsertByCost(e, es[1..])
  }

  lemma {:induction false} InsertKeepsOrder(e: ChartEntry, es: seq<ChartEntry>)
    requires NonIncreasing(es)
    ensures NonIncreasing(InsertByCost(e, es))
  {
    if es != [] && es[0].cost > e.cost {
      var rest := InsertByCost(e, es[1..]);
      InsertKeepsOrder(e, es[1..]);
      forall x | x in rest ensures es[0].cost >= x.cost {
        assert x in multiset(rest);
        if x != e {
          assert x in es[1..];
        }
      }
      assert InsertByCost(e, es) == [es[0]] + rest;
    }
  }

  lemma {:induction false} InsertAddsCost(e: ChartEntry, es: seq<ChartEntry>)
    ensures SumOf(EntryCost, InsertByCost(e, es)) == SumOf(EntryCost, es) + e.cost
  {
    if es == [] {
      SumOfCons(e, []);
    } else if es[0].cost <= e.cost {
      SumOfCons(e, es);
    } else {
      var rest := InsertByCost(e, es[1..]);
      InsertAddsCost(e, es[1..]);
      SumOfCons(es[0], rest);
      assert es == [es[0]] + es[1..];
      SumOfCons(es[0], es[1..]);
    }
  }

  lemma {:induction false} SumOfCons(e: ChartEntry, es: seq<ChartEntry>)
    ensures SumOf(EntryCost, [e] + es) == e.cost + SumOf(EntryCost, es)
  {
    if es == [] {
      SumOfSnoc(EntryCost, [], e);
      assert [e] + es == [] + [e];
    } else {
      var init, last := es[..|es| - 1], es[|es| - 1];
      assert [e] + es == ([e] + init) + [last];
      assert es == init + [last];
      SumOfSnoc(EntryCost, [e] + init, last);
      SumOfSnoc(EntryCost, init, last);
      SumOfCons(e, init);
    }
  }

  /** `.sort((a, b) => b.cost - a.cost)`: a stable sort, highest cost first. */
  function SortByCost(es: seq<ChartEntry>): (r: seq<ChartEntry>)
    ensures multiset(r) == multiset(es)
    ensures NonIncreasing(r)
    ensures SumOf(EntryCost, r) == SumOf(EntryCost, es)
  {
    if es == [] then []
    else
      var sorted := SortByCost(es[1..]);
      assert es == [es[0]] + es[1..];
      SumOfCons(es[0], es[1..]);
      InsertKeepsOrder(es[0], sorted);
      InsertAddsCost(es[0], sorted);
      InsertByCost(es[0], sorted)
  }

  function ChartData(acc: seq<TypeCost>): seq<ChartEntry> {
    SortByCost(Map(ChartEntryOf, acc))
  }

  /** The bars add up to the total cost of all resources. */
  lemma ChartSumsToTotal(rs: seq<Resource>)
    ensures SumOf(EntryCost, ChartData(CostEntries(rs))) == SumOf(CostOf, rs)
  {
    var acc, ks := CostEntries(rs), Keys(TypeOf, rs);
    var unsorted := Map(ChartEntryOf, acc);
    CostEntriesMeaning(rs);
    assert forall k :: 0 <= k < |unsorted| ==> EntryCost(unsorted[k]) == KeySum(TypeOf, CostOf, rs, ks[k]);
    EntriesSumToKeySums(EntryCost, unsorted, TypeOf, CostOf, ks, rs);
    GroupsPartition(TypeOf, CostOf, rs);
  }

  /** One bar per type present, highest cost first, each with its type's total. */
  lemma ChartBars(rs: seq<Resource>, t: ResourceType)
    ensures |ChartData(CostEntries(rs))| == |Keys(TypeOf, rs)|
    ensures NonIncreasing(ChartData(CostEntries(rs)))
    ensures t in Keys(TypeOf, rs) ==>
      ChartEntryOf(TypeCost(t, KeySum(TypeOf, CostOf, rs, t))) in ChartData(CostEntries(rs))
  {
    var acc, ks := CostEntries(rs), Keys(TypeOf, rs);
    var unsorted := Map(ChartEntryOf, acc);
    CostEntriesMeaning(rs);
    assert |multiset(ChartData(acc))| == |multiset(unsorted)|;
    if t in ks {
      var k :| 0 <= k < |ks| && ks[k] == t;
      assert unsorted[k] in multiset(unsorted);
    }
  }

  /** Every bar belongs to a type present and shows that type's total. */
  lemma ChartBarsArePresentTypes(rs: seq<Resource>, e: ChartEntry)
    requires e in ChartData(CostEntries(rs))
    ensures exists t :: t in Keys(TypeOf, rs) && e == ChartEntryOf(TypeCost(t, KeySum(TypeOf, CostOf, rs, t)))
  {
    var acc, ks := CostEntries(rs), Keys(TypeOf, rs);
    var unsorted := Map(ChartEntryOf, acc);
    CostEntriesMeaning(rs);
    assert e in multiset(unsorted);
    var k :| 0 <= k < |unsorted| && unsorted[k] == e;
    assert ks[k] in ks;
  }

  /** `index % 5 + 1`: the bar colours cycle through the five chart colours. */
  function BarColour(index: nat): (c: nat)
    ensures 1 <= c <= 5
  {
    index % 5 + 1
  }

  lemma BarColoursCycle(index: nat)
    ensures BarColour(index + 5) == BarColour(index)
    ensures BarColour(index + 1) == if BarColour(index) == 5 then 1 else BarColour(index) + 1
  {
  }
}
