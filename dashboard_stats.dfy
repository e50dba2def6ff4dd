/**
 * `getSubscriptionStats` of the dashboard statistics component: the costs of
 * the rows returned by `select('monthly_cost')`, folded into a total, a count
 * and an average. The currency formatting of the result is not modelled.
 */
module DashboardStats {
  import opened Common
  import opened Aggregate

  /** One selected row: its `monthly_cost` column, which may be null. */
  type CostRow = Option<real>

  /** `sub.monthly_cost || 0`: a null cost contributes 0 (a cost of 0 contributes 0 anyway). */
  function Contribution(row: CostRow): (cost: real)
    ensures row.Some? ==> cost == row.value
    ensures cost == 0.0 <==> row.None? || row.value == 0.0
  {
    match row
    case None => 0.0
    case Some(v) => v
  }

  /** The contribution of every row, in row order. */
  function Contributions(rows: seq<CostRow>): (cs: seq<real>)
    ensures |cs| == |rows|
    ensures forall i :: 0 <= i < |rows| ==> cs[i] == Contribution(rows[i])
  {
    seq(|rows|, i requires 0 <= i < |rows| => Contribution(rows[i]))
  }

  /** The costs that are present, in row order: a reference definition that drops null rows. */
  function Present(rows: seq<CostRow>): seq<real>
  {
    if rows == [] then []
    else
      var last := rows[|rows| - 1];
      Present(rows[..|rows| - 1]) + (if last.Some? then [last.value] else [])
  }

  /**
   * The statistics of a query result: all zero when the result is null,
   * otherwise the total of the contributions, the number of rows and the
   * average guarded against a zero count.
   */
  function GetSubscriptionStats(rows: Option<seq<CostRow>>): (s: Stats)
    ensures rows.None? ==> s == Zero
    ensures rows.Some? ==> s.count == |rows.value|
    ensures rows.Some? && rows.value == [] ==> s == Zero
    ensures Consistent(s)
  {
    match rows
    case None => Zero
    case Some(rs) => Of(Contributions(rs))
  }

  /** The total is the sum of the costs that are present: null rows add nothing. */
  lemma {:induction false} TotalIsSumOfPresent(rows: seq<CostRow>)
    ensures GetSubscriptionStats(Some(rows)).total == Sum(Present(rows))
  {
    if rows != [] {
      var n := |rows| - 1;
      var last := rows[n];
      TotalIsSumOfPresent(rows[..n]);
      assert Contributions(rows)[..n] == Contributions(rows[..n]);
      var tail := if last.Some? then [last.value] else [];
      SumAppend(Present(rows[..n]), tail);
      assert Sum(tail) == Contribution(last) by {
        if last.Some? {
          assert tail[..0] == [];
        }
      }
    }
  }

  /** A row with a null cost counts as a subscription but leaves the total unchanged. */
  lemma NullRowCountsWithoutCost(rows: seq<CostRow>)
    ensures GetSubscriptionStats(Some(rows + [None])).count == GetSubscriptionStats(Some(rows)).count + 1
    ensures GetSubscriptionStats(Some(rows + [None])).total == GetSubscriptionStats(Some(rows)).total
  {
    var extended := rows + [None];
    assert Contributions(extended) == Contributions(rows) + [0.0];
    SumAppend(Contributions(rows), [0.0]);
    assert Sum([0.0]) == 0.0 by {
      assert [0.0][..0] == [];
    }
  }

  /** The average lies between the smallest and the largest contribution when there is a row. */
  lemma AverageBetweenCosts(rows: seq<CostRow>, lo: real, hi: real)
    requires |rows| > 0
    requires forall i :: 0 <= i < |rows| ==> lo <= Contribution(rows[i]) <= hi
    ensures lo <= GetSubscriptionStats(Some(rows)).average <= hi
  {
    AverageWithinBounds(Contributions(rows), lo, hi);
  }
}
