/** The sales figures of the reports page: total sales and twelve monthly buckets, computed
    from every invoice's item blob, with corrupt blobs counting as no items. */
module Reports {
  import opened Wrappers
  import opened Calendar
  import opened Invoices

  /** The items the report sees: a blob that fails to parse reads as no items. */
  function ReportItems(inv: Invoice, parse: Parser): (items: seq<RawItem>)
    ensures LoadItems(inv.items, parse).None? ==> items == []
    ensures LoadItems(inv.items, parse).Some? ==> items == LoadItems(inv.items, parse).value
  {
    match LoadItems(inv.items, parse)
    case None => []
    case Some(items) => items
  }

  /** One invoice's contribution: the lenient subtotal plus its tax. */
  function InvoiceSales(inv: Invoice, parse: Parser): real {
    Total(LenientSubtotal(ReportItems(inv, parse)), inv.taxPercent)
  }

  /** `total_sales`: every invoice's contribution, added in query order. */
  function TotalSales(invs: seq<Invoice>, parse: Parser): real
    decreases |invs|
  {
    if invs == [] then 0.0
    else TotalSales(invs[..|invs| - 1], parse) + InvoiceSales(invs[|invs| - 1], parse)
  }

  /** The contributions of the invoices created in month `m`. */
  function MonthSales(invs: seq<Invoice>, parse: Parser, m: Month): real
    decreases |invs|
  {
    if invs == [] then 0.0
    else
      var last := invs[|invs| - 1];
      MonthSales(invs[..|invs| - 1], parse, m)
        + (if last.createdMonth == Some(m) then InvoiceSales(last, parse) else 0.0)
  }

  /** Some invoice was created in month `m`. */
  predicate HasMonth(invs: seq<Invoice>, m: Month) {
    exists k :: 0 <= k < |invs| && invs[k].createdMonth == Some(m)
  }

  /** The twelve chart values, January first. */
  function SalesValues(invs: seq<Invoice>, parse: Parser): (values: seq<real>)
    ensures |values| == 12
  {
    seq(12, k requires 0 <= k < 12 => MonthSales(invs, parse, k + 1))
  }

  /** What `monthly_sales` holds after the invoices `invs`: a key for each month some
      invoice was created in, mapped to that month's sum. */
  function MonthlyMap(invs: seq<Invoice>, parse: Parser): map<Month, real> {
    map m: Month | 1 <= m <= 12 && HasMonth(invs, m) :: MonthSales(invs, parse, m)
  }

  /** The keys of `monthly_sales` are the months some invoice was created in, and each maps
      to the sum of that month's invoices. */
  lemma MonthlyMapMeaning(invs: seq<Invoice>, parse: Parser)
    ensures forall m: Month :: m in MonthlyMap(invs, parse) <==> HasMonth(invs, m)
    ensures forall m: Month :: m in MonthlyMap(invs, parse) ==> MonthlyMap(invs, parse)[m] == MonthSales(invs, parse, m)
  {
  }

  /** No invoices, no keys. */
  lemma EmptyMonthlyMap(parse: Parser)
    ensures MonthlyMap([], parse) == map[]
  {
  }

  /** The first loop of `reports`: the running total and the `monthly_sales` dictionary. */
  method AggregateSales(invs: seq<Invoice>, parse: Parser) returns (totalSales: real, monthly: map<Month, real>)
    ensures totalSales == TotalSales(invs, parse)
    ensures monthly == MonthlyMap(invs, parse)
  {
    totalSales := 0.0;
    monthly := map[];
    var i := 0;
    assert monthly == MonthlyMap(invs[..0], parse) by {
      assert invs[..0] == [];
      EmptyMonthlyMap(parse);
    }
    while i < |invs|
      invariant 0 <= i <= |invs|
      invariant totalSales == TotalSales(invs[..i], parse)
      invariant monthly == MonthlyMap(invs[..i], parse)
    {
      var inv := invs[i];
      var items := ReportItems(inv, parse);
      var subtotal := LenientSubtotal(items);
      var total := subtotal + subtotal * (inv.taxPercent / 100.0);
      assert total == InvoiceSales(inv, parse);
      TotalSalesStep(invs, parse, i);
      MonthlyMapStep(invs, parse, i);
      totalSales := totalSales + total;
      if inv.createdMonth.Some? {
        var month := inv.createdMonth.value;
        monthly := monthly[month := (if month in monthly then monthly[month] else 0.0) + total];
      }
      i := i + 1;
    }
    assert invs[..i] == invs;
  }

  /** How one more invoice changes `monthly_sales`: its month's entry grows by its
      contribution (starting from 0), every other entry stays. */
  lemma MonthlyMapStep(invs: seq<Invoice>, parse: Parser, i: nat)
    requires i < |invs|
    ensures var before := MonthlyMap(invs[..i], parse);
            var total := InvoiceSales(invs[i], parse);
            MonthlyMap(invs[..i + 1], parse)
              == if invs[i].createdMonth.None? then before
                 else
                   var month := invs[i].createdMonth.value;
                   before[month := (if month in before then before[month] else 0.0) + total]
  {
    var before := MonthlyMap(invs[..i], parse);
    var after := MonthlyMap(invs[..i + 1], parse);
    var total := InvoiceSales(invs[i], parse);
    var expected :=
      if invs[i].createdMonth.None? then before
      else
        var month := invs[i].createdMonth.value;
        before[month := (if month in before then before[month] else 0.0) + total];
    MonthlyMapMeaning(invs[..i], parse);
    MonthlyMapMeaning(invs[..i + 1], parse);
    forall m: Month ensures m in after <==> m in expected {
      HasMonthStep(invs, i, m);
    }
    assert invs[..i + 1] == invs[..i] + [invs[i]];
    forall m: Month | m in after ensures after[m] == expected[m] {
      MonthSalesSnoc(invs[..i], invs[i], parse, m);
      if m !in before {
        NoInvoiceNoSales(invs[..i], parse, m);
      }
    }
    assert after == expected;
  }

  /** Extending a prefix by one invoice adds that invoice's contribution to the total. */
  lemma TotalSalesStep(invs: seq<Invoice>, parse: Parser, i: nat)
    requires i < |invs|
    ensures TotalSales(invs[..i + 1], parse) == TotalSales(invs[..i], parse) + InvoiceSales(invs[i], parse)
  {
    assert invs[..i + 1] == invs[..i] + [invs[i]];
    TotalSalesSnoc(invs[..i], invs[i], parse);
  }

  /** Extending a prefix by one invoice adds that invoice's month to the months seen. */
  lemma HasMonthStep(invs: seq<Invoice>, i: nat, m: Month)
    requires i < |invs|
    ensures HasMonth(invs[..i + 1], m) <==> HasMonth(invs[..i], m) || invs[i].createdMonth == Some(m)
  {
    var p, q := invs[..i], invs[..i + 1];
    if HasMonth(q, m) {
      var k :| 0 <= k < |q| && q[k].createdMonth == Some(m);
      if k < i {
        assert p[k] == q[k];
      }
    }
    if HasMonth(p, m) {
      var k :| 0 <= k < |p| && p[k].createdMonth == Some(m);
      assert q[k] == p[k];
    }
    if invs[i].createdMonth == Some(m) {
      assert q[i] == invs[i];
    }
  }

  /** The second loop of `reports`: month labels and `monthly_sales.get(m, 0)` for m in 1..12. */
  method ChartSeries(monthly: map<Month, real>) returns (months: seq<string>, values: seq<real>)
    ensures months == MonthNames
    ensures |values| == 12
    ensures forall k :: 0 <= k < 12 ==> values[k] == if (k + 1) in monthly then monthly[k + 1] else 0.0
  {
    months, values := [], [];
    for m := 1 to 13
      invariant |months| == |values| == m - 1
      invariant months == MonthNames[..m - 1]
      invariant forall k :: 0 <= k < m - 1 ==> values[k] == if (k + 1) in monthly then monthly[k + 1] else 0.0
    {
      months := months + [MonthNames[m - 1]];
      values := values + [if m in monthly then monthly[m] else 0.0];
    }
  }

  /** The sales part of `reports`: total sales, the month labels and the twelve bucket values,
      each the sum of its month's invoices (0 for a month without invoices). */
  method SalesReport(invs: seq<Invoice>, parse: Parser) returns (totalSales: real, months: seq<string>, salesValues: seq<real>)
    ensures totalSales == TotalSales(invs, parse)
    ensures months == MonthNames
    ensures salesValues == SalesValues(invs, parse)
  {
    var monthly;
    totalSales, monthly := AggregateSales(invs, parse);
    months, salesValues := ChartSeries(monthly);
    forall k | 0 <= k < 12 ensures salesValues[k] == MonthSales(invs, parse, k + 1) {
      if (k + 1) !in monthly {
        NoInvoiceNoSales(invs, parse, k + 1);
      }
    }
  }

  /** A month nobody created an invoice in sums to 0. */
  lemma {:induction false} NoInvoiceNoSales(invs: seq<Invoice>, parse: Parser, m: Month)
    requires !HasMonth(invs, m)
    ensures MonthSales(invs, parse, m) == 0.0
    decreases |invs|
  {
    if invs != [] {
      var init := invs[..|invs| - 1];
      assert !HasMonth(init, m) by {
        forall k | 0 <= k < |init| ensures init[k].createdMonth != Some(m) {
          assert init[k] == invs[k];
        }
      }
      NoInvoiceNoSales(init, parse, m);
      assert invs[|invs| - 1].createdMonth != Some(m);
    }
  }

  /** The reals of `s` added up front to back. */
  function SumReals(s: seq<real>): real
    decreases |s|
  {
    if s == [] then 0.0 else SumReals(s[..|s| - 1]) + s[|s| - 1]
  }

  /** When every invoice has a creation date, the twelve buckets add up to total sales. */
  lemma {:induction false} BucketsSumToTotal(invs: seq<Invoice>, parse: Parser)
    requires forall k :: 0 <= k < |invs| ==> invs[k].createdMonth.Some?
    ensures SumReals(SalesValues(invs, parse)) == TotalSales(invs, parse)
    decreases |invs|
  {
    if invs == [] {
      PrefixSumZero(SalesValues(invs, parse), 12);
      assert SalesValues(invs, parse)[..12] == SalesValues(invs, parse);
    } else {
      var init := invs[..|invs| - 1];
      var last := invs[|invs| - 1];
      assert forall k :: 0 <= k < |init| ==> init[k] == invs[k];
      BucketsSumToTotal(init, parse);
      var u, v := SalesValues(init, parse), SalesValues(invs, parse);
      var month: int := last.createdMonth.value;
      forall k | 0 <= k < 12
        ensures v[k] == u[k] + (if k + 1 == month then InvoiceSales(last, parse) else 0.0)
      {
      }
      PrefixSumAddsOne(u, v, month - 1, InvoiceSales(last, parse), 12);
      assert u[..12] == u && v[..12] == v;
    }
  }

  /** A prefix of values that are all zero sums to 0. */
  lemma {:induction false} PrefixSumZero(s: seq<real>, n: nat)
    requires n <= |s| && forall k :: 0 <= k < n ==> s[k] == 0.0
    ensures SumReals(s[..n]) == 0.0
    decreases n
  {
    if n > 0 {
      assert s[..n][..n - 1] == s[..n - 1];
      PrefixSumZero(s, n - 1);
    }
  }

  /** Two sequences equal but for `x` added at position `j` have prefix sums that differ by
      `x` once the prefix covers `j`. */
  lemma {:induction false} PrefixSumAddsOne(u: seq<real>, v: seq<real>, j: nat, x: real, n: nat)
    requires |u| == |v| && n <= |u| && j < |u|
    requires forall k :: 0 <= k < |u| ==> v[k] == u[k] + (if k == j then x else 0.0)
    ensures SumReals(v[..n]) == SumReals(u[..n]) + (if j < n then x else 0.0)
    decreases n
  {
    if n > 0 {
      assert u[..n][..n - 1] == u[..n - 1];
      assert v[..n][..n - 1] == v[..n - 1];
      PrefixSumAddsOne(u, v, j, x, n - 1);
    }
  }

  /** An invoice whose blob does not parse contributes exactly its tax on nothing: 0. */
  lemma MalformedContributesZero(inv: Invoice, parse: Parser)
    requires LoadItems(inv.items, parse).None?
    ensures InvoiceSales(inv, parse) == 0.0
  {
  }

  /** Corrupt invoices are skipped: taking one out changes neither total sales nor any bucket. */
  lemma MalformedIsSkipped(invs: seq<Invoice>, parse: Parser, j: nat)
    requires j < |invs| && LoadItems(invs[j].items, parse).None?
    ensures TotalSales(invs, parse) == TotalSales(invs[..j] + invs[j + 1..], parse)
    ensures forall m: Month :: MonthSales(invs, parse, m) == MonthSales(invs[..j] + invs[j + 1..], parse, m)
  {
    MalformedSkippedInTotal(invs, parse, j);
    forall m: Month ensures MonthSales(invs, parse, m) == MonthSales(invs[..j] + invs[j + 1..], parse, m) {
      MalformedSkippedInMonth(invs, parse, j, m);
    }
  }

  /** Taking a corrupt invoice out leaves total sales as they are. */
  lemma {:induction false} MalformedSkippedInTotal(invs: seq<Invoice>, parse: Parser, j: nat)
    requires j < |invs| && LoadItems(invs[j].items, parse).None?
    ensures TotalSales(invs, parse) == TotalSales(invs[..j] + invs[j + 1..], parse)
    decreases |invs|
  {
    var n := |invs|;
    var init, last := invs[..n - 1], invs[n - 1];
    assert invs == init + [last];
    if j == n - 1 {
      assert invs[..j] + invs[j + 1..] == init;
      MalformedContributesZero(last, parse);
      TotalSalesSnoc(init, last, parse);
    } else {
      var shorter := init[..j] + init[j + 1..];
      assert invs[..j] + invs[j + 1..] == shorter + [last];
      assert init[j] == invs[j];
      MalformedSkippedInTotal(init, parse, j);
      TotalSalesSnoc(init, last, parse);
      TotalSalesSnoc(shorter, last, parse);
    }
  }

  /** Taking a corrupt invoice out leaves the sales of month `m` as they are. */
  lemma {:induction false} MalformedSkippedInMonth(invs: seq<Invoice>, parse: Parser, j: nat, m: Month)
    requires j < |invs| && LoadItems(invs[j].items, parse).None?
    ensures MonthSales(invs, parse, m) == MonthSales(invs[..j] + invs[j + 1..], parse, m)
    decreases |invs|
  {
    var n := |invs|;
    var init, last := invs[..n - 1], invs[n - 1];
    assert invs == init + [last];
    if j == n - 1 {
      assert invs[..j] + invs[j + 1..] == init;
      MalformedContributesZero(last, parse);
      MonthSalesSnoc(init, last, parse, m);
    } else {
      var shorter := init[..j] + init[j + 1..];
      assert invs[..j] + invs[j + 1..] == shorter + [last];
      assert init[j] == invs[j];
      MalformedSkippedInMonth(init, parse, j, m);
      MonthSalesSnoc(init, last, parse, m);
      MonthSalesSnoc(shorter, last, parse, m);
    }
  }

  /** One more invoice at the end adds its contribution to total sales. */
  lemma TotalSalesSnoc(invs: seq<Invoice>, last: Invoice, parse: Parser)
    ensures TotalSales(invs + [last], parse) == TotalSales(invs, parse) + InvoiceSales(last, parse)
  {
    assert (invs + [last])[..|invs|] == invs;
  }

  /** One more invoice at the end adds its contribution to its month's sales. */
  lemma MonthSalesSnoc(invs: seq<Invoice>, last: Invoice, parse: Parser, m: Month)
    ensures MonthSales(invs + [last], parse, m)
         == MonthSales(invs, parse, m) + (if last.createdMonth == Some(m) then InvoiceSales(last, parse) else 0.0)
  {
    assert (invs + [last])[..|invs|] == invs;
  }

  /** For a blob that parses into items with every key present, the report's per-invoice
      figure is `Invoice.total()`; those are exactly the invoices whose `total()` does not raise. */
  lemma ReportAgreesWithInvoiceTotal(inv: Invoice, parse: Parser)
    ensures InvoiceTotal(inv, parse).Some? <==>
              LoadItems(inv.items, parse).Some?
              && forall k :: 0 <= k < |LoadItems(inv.items, parse).value| ==> Priced(LoadItems(inv.items, parse).value[k])
    ensures InvoiceTotal(inv, parse).Some? ==> InvoiceTotal(inv, parse) == Some(InvoiceSales(inv, parse))
  {
  }
}
