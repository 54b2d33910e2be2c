/**
 * The dashboard's four figures (components/stats-cards.tsx): how many
 * resources there are, how many are active or failing, what they cost in
 * total, and the error card's trend line.
 */
module StatsCards {
  import opened Collections
  import opened Grouping
  import opened ResourceContext

  function CostOf(r: Resource): real {
    r.cost
  }

  function StatusCount(rs: seq<Resource>, s: ResourceStatus): nat {
    Count((r: Resource) => r.status == s, rs)
  }

  datatype Stats = Stats(total: nat, active: nat, errors: nat, totalCost: real, errorTrend: string, errorTrendUp: bool)

  function ComputeStats(rs: seq<Resource>): Stats {
    var errors := StatusCount(rs, Error);
    Stats(|rs|, StatusCount(rs, Active), errors, SumOf(CostOf, rs),
          if errors > 0 then "Needs attention" else "All clear", errors == 0)
  }

  /** Active and failing resources are disjoint, so together they are at most the total. */
  lemma {:induction false} ActiveAndErrorsWithinTotal(rs: seq<Resource>)
    ensures StatusCount(rs, Active) + StatusCount(rs, Error) <= |rs|
  {
    if rs != [] {
      CountUnfold((r: Resource) => r.status == Active, rs);
      CountUnfold((r: Resource) => r.status == Error, rs);
      ActiveAndErrorsWithinTotal(rs[1..]);
    }
  }

  /** The error card asks for attention exactly when a resource has failed, and only then points down. */
  lemma ErrorTrend(rs: seq<Resource>)
    ensures var st := ComputeStats(rs);
      && (st.errorTrend == "Needs attention" <==> exists k :: 0 <= k < |rs| && rs[k].status == Error)
      && (st.errorTrend == "All clear" <==> st.errorTrendUp)
      && (st.errorTrendUp <==> st.errors == 0)
  {
    var p := (r: Resource) => r.status == Error;
    if exists k :: 0 <= k < |rs| && rs[k].status == Error {
      var k :| 0 <= k < |rs| && rs[k].status == Error;
      assert rs[k] in Filter(p, rs);
    }
  }

  /**
   * The figures of one more resource: one more in total, one more active or
   * failing exactly when it is, and its cost added to the total.
   */
  lemma StatsAfterAppend(rs: seq<Resource>, r: Resource)
    ensures var before, after := ComputeStats(rs), ComputeStats(rs + [r]);
      && after.total == before.total + 1
      && after.active == before.active + (if r.status == Active then 1 else 0)
      && after.errors == before.errors + (if r.status == Error then 1 else 0)
      && after.totalCost == before.totalCost + r.cost
  {
    FilterSnoc((x: Resource) => x.status == Active, rs, r);
    FilterSnoc((x: Resource) => x.status == Error, rs, r);
    SumOfSnoc(CostOf, rs, r);
  }

  /** With no resources every figure is zero and the error card reads "All clear". */
  lemma NoResourcesStats()
    ensures ComputeStats([]) == Stats(0, 0, 0, 0.0, "All clear", true)
  {
  }
}
