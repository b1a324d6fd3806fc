/** The dashboard's month charts: twelve zero-filled slots, filled from grouped month counts. */
module Dashboard {
  import opened Wrappers
  import opened Calendar

  /**
   * A row of the grouped query: the month extracted from the timestamp and how many
   * records fall in it. The month is None when the timestamp is NULL (an invoice's
   * `created_at` is nullable), and `int(None)` then raises.
   */
  type MonthRow = (Option<Month>, nat)

  predicate AllDated(rows: seq<MonthRow>) {
    forall j :: 0 <= j < |rows| ==> rows[j].0.Some?
  }

  /** The count the loop leaves in month `m`'s slot: that of the last row for `m`, or 0. */
  function LastCount(rows: seq<MonthRow>, m: Month): nat
    decreases |rows|
  {
    if rows == [] then 0
    else if rows[|rows| - 1].0 == Some(m) then rows[|rows| - 1].1
    else LastCount(rows[..|rows| - 1], m)
  }

  /**
   * Twelve zero slots, then slot `int(m) - 1` set to `cnt` for every row in order;
   * None when a row without a month makes the conversion raise.
   */
  method MonthCounts(rows: seq<MonthRow>) returns (counts: Option<seq<int>>)
    ensures counts.Some? <==> AllDated(rows)
    ensures counts.Some? ==> |counts.value| == 12
    ensures counts.Some? ==>
      forall k :: 0 <= k < 12 ==> counts.value[k] == LastCount(rows, k + 1)
  {
    var slots := new int[12](_ => 0);
    for i := 0 to |rows|
      invariant AllDated(rows[..i])
      invariant forall k :: 0 <= k < 12 ==> slots[k] == LastCount(rows[..i], k + 1)
    {
      var (m, cnt) := rows[i];
      if m.None? {
        return None;
      }
      slots[m.value - 1] := cnt;
      assert rows[..i + 1][..i] == rows[..i];
    }
    assert rows[..|rows|] == rows;
    counts := Some(slots[..]);
  }

  /**
   * Both dashboard charts: follow-ups and invoices per month; None when either
   * query yields an undated group and the page fails.
   */
  method DashboardCounts(followupRows: seq<MonthRow>, invoiceRows: seq<MonthRow>)
    returns (charts: Option<(seq<int>, seq<int>)>)
    ensures charts.Some? <==> AllDated(followupRows) && AllDated(invoiceRows)
    ensures charts.Some? ==> |charts.value.0| == 12 && |charts.value.1| == 12
    ensures charts.Some? ==>
      forall k :: 0 <= k < 12 ==> charts.value.0[k] == LastCount(followupRows, k + 1)
    ensures charts.Some? ==>
      forall k :: 0 <= k < 12 ==> charts.value.1[k] == LastCount(invoiceRows, k + 1)
  {
    var followupCounts := MonthCounts(followupRows);
    if followupCounts.None? {
      return None;
    }
    var invoiceCounts := MonthCounts(invoiceRows);
    if invoiceCounts.None? {
      return None;
    }
    charts := Some((followupCounts.value, invoiceCounts.value));
  }

  /** A grouped query reports each month at most once. */
  predicate Grouped(rows: seq<MonthRow>) {
    forall i, j :: 0 <= i < j < |rows| ==> rows[i].0 != rows[j].0
  }

  /** For a grouped query, a month's slot holds the count reported for it. */
  lemma {:induction false} ReportedMonthCount(rows: seq<MonthRow>, j: nat)
    requires Grouped(rows) && j < |rows|
    requires rows[j].0.Some?
    ensures LastCount(rows, rows[j].0.value) == rows[j].1
    decreases |rows|
  {
    var n := |rows|;
    if j < n - 1 {
      var init := rows[..n - 1];
      assert rows[n - 1].0 != rows[j].0;
      assert init[j] == rows[j];
      ReportedMonthCount(init, j);
    }
  }

  /** A month no row reports keeps its initial 0. */
  lemma {:induction false} UnreportedMonthIsZero(rows: seq<MonthRow>, m: Month)
    requires forall j :: 0 <= j < |rows| ==> rows[j].0 != Some(m)
    ensures LastCount(rows, m) == 0
    decreases |rows|
  {
    if rows != [] {
      var init := rows[..|rows| - 1];
      assert forall j :: 0 <= j < |init| ==> init[j] == rows[j];
      UnreportedMonthIsZero(init, m);
    }
  }
}
