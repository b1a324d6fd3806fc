/** The logical rows of the invoice PDF table: a header, one row per item, three summary rows. */
module InvoiceTable {
  import opened Wrappers
  import opened Invoices

  /** A table row. Money cells keep their value; the currency formatting of the PDF is not modelled. */
  datatype Row =
    | Header(labels: seq<string>)
    | ItemRow(index: nat, name: string, qty: real, price: real, total: real)
    | SubtotalRow(amount: real)
    | TaxRow(percent: real, amount: real)
    | GrandTotalRow(amount: real)

  const HeaderLabels: seq<string> := ["#", "Item", "Qty", "Price", "Total"]

  /** Every key the PDF table reads (`item["name"]`, `item["qty"]`, `item["price"]`) is present. */
  predicate Complete(item: RawItem) {
    item.name.Some? && item.qty.Some? && item.price.Some?
  }

  /** The body row of the item at 1-based position `index`. */
  function ItemRowOf(index: nat, item: RawItem): Row
    requires Complete(item)
  {
    ItemRow(index, item.name.value, item.qty.value, item.price.value, item.qty.value * item.price.value)
  }

  /** The body rows, numbered from 1 in item order; None where an item lacks a key. */
  function BodyRows(items: seq<RawItem>): (rows: Option<seq<Row>>)
    ensures rows.Some? <==> forall k :: 0 <= k < |items| ==> Complete(items[k])
    ensures rows.Some? ==> |rows.value| == |items|
    decreases |items|
  {
    if items == [] then Some([])
    else
      var last := items[|items| - 1];
      var init := BodyRows(items[..|items| - 1]);
      if init.Some? && Complete(last) then Some(init.value + [ItemRowOf(|items|, last)]) else None
  }

  /** The three summary rows for a subtotal: the grand total is the subtotal plus the tax,
      and at 0% there is no tax. */
  function SummaryRows(subtotal: real, taxPercent: real): (rows: seq<Row>)
    ensures |rows| == 3 && rows[0] == SubtotalRow(subtotal)
    ensures rows[1].TaxRow? && rows[1].percent == taxPercent && rows[2].GrandTotalRow?
    ensures rows[2].amount == rows[0].amount + rows[1].amount
    ensures taxPercent == 0.0 ==> rows[1].amount == 0.0 && rows[2].amount == subtotal
  {
    [ SubtotalRow(subtotal),
      TaxRow(taxPercent, TaxAmount(subtotal, taxPercent)),
      GrandTotalRow(Total(subtotal, taxPercent)) ]
  }

  /** The whole table of an item list, or None where building it raises. */
  function Table(items: seq<RawItem>, taxPercent: real): Option<seq<Row>> {
    match BodyRows(items)
    case None => None
    case Some(body) => Some([Header(HeaderLabels)] + body + SummaryRows(LenientSubtotal(items), taxPercent))
  }

  /** The table `invoice_pdf` builds for an invoice: None where the blob fails to parse, where
      `created_at` is null (the date line above the table raises), or where an item lacks a key. */
  method BuildTable(inv: Invoice, parse: Parser) returns (table: Option<seq<Row>>)
    ensures LoadItems(inv.items, parse).None? || inv.createdMonth.None? ==> table.None?
    ensures LoadItems(inv.items, parse).Some? && inv.createdMonth.Some? ==>
              table == Table(LoadItems(inv.items, parse).value, inv.taxPercent)
  {
    var loaded := LoadItems(inv.items, parse);
    if loaded.None? {
      return None;
    }
    if inv.createdMonth.None? {
      return None;
    }
    var items := loaded.value;
    var data := [Header(HeaderLabels)];
    var subtotal := 0.0;
    var i := 0;
    while i < |items|
      invariant 0 <= i <= |items|
      invariant BodyRows(items[..i]).Some?
      invariant data == [Header(HeaderLabels)] + BodyRows(items[..i]).value
      invariant subtotal == LenientSubtotal(items[..i])
    {
      var item := items[i];
      assert items[..i + 1][..i] == items[..i];
      if !Complete(item) {
        assert BodyRows(items).None?;
        return None;
      }
      var total := item.qty.value * item.price.value;
      subtotal := subtotal + total;
      ghost var before := BodyRows(items[..i]).value;
      data := data + [ItemRow(i + 1, item.name.value, item.qty.value, item.price.value, total)];
      assert ItemRow(i + 1, item.name.value, item.qty.value, item.price.value, total) == ItemRowOf(i + 1, item);
      assert data == [Header(HeaderLabels)] + before + [ItemRowOf(i + 1, item)];
      assert data == [Header(HeaderLabels)] + (before + [ItemRowOf(i + 1, item)]);
      assert BodyRows(items[..i + 1]) == Some(before + [ItemRowOf(i + 1, item)]);
      i := i + 1;
    }
    assert items[..i] == items;
    var taxAmount := subtotal * (inv.taxPercent / 100.0);
    var grandTotal := subtotal + taxAmount;
    ghost var body := BodyRows(items).value;
    assert subtotal == LenientSubtotal(items);
    assert taxAmount == TaxAmount(subtotal, inv.taxPercent);
    assert grandTotal == Total(subtotal, inv.taxPercent);
    data := data + [SubtotalRow(subtotal), TaxRow(inv.taxPercent, taxAmount), GrandTotalRow(grandTotal)];
    assert [SubtotalRow(subtotal), TaxRow(inv.taxPercent, taxAmount), GrandTotalRow(grandTotal)]
        == SummaryRows(LenientSubtotal(items), inv.taxPercent);
    assert data == [Header(HeaderLabels)] + body + SummaryRows(LenientSubtotal(items), inv.taxPercent);
    table := Some(data);
  }

  /** The layout of the table: one header, then the items numbered 1..n in order with
      `qty * price` as their total, then exactly three summary rows whose subtotal is
      `Invoice.subtotal()` and whose grand total is `Invoice.total()`'s formula. */
  lemma TableLayout(items: seq<RawItem>, taxPercent: real)
    ensures Table(items, taxPercent).Some? <==> forall k :: 0 <= k < |items| ==> Complete(items[k])
    ensures Table(items, taxPercent).Some? ==>
              var rows := Table(items, taxPercent).value;
              var n := |items|;
              && |rows| == n + 4
              && rows[0] == Header(HeaderLabels)
              && (forall k :: 1 <= k <= n ==> rows[k] == ItemRowOf(k, items[k - 1]))
              && Subtotal(items).Some?
              && rows[n + 1] == SubtotalRow(Subtotal(items).value)
              && rows[n + 2] == TaxRow(taxPercent, TaxAmount(Subtotal(items).value, taxPercent))
              && rows[n + 3] == GrandTotalRow(Total(Subtotal(items).value, taxPercent))
  {
    if BodyRows(items).Some? {
      forall j | 0 <= j < |items| ensures BodyRows(items).value[j] == ItemRowOf(j + 1, items[j]) {
        BodyRowAt(items, j + 1);
      }
      assert forall k :: 0 <= k < |items| ==> Priced(items[k]) by {
        forall k | 0 <= k < |items| ensures Priced(items[k]) {
          assert Complete(items[k]);
        }
      }
    }
  }

  /** The `k`-th body row (1-based) shows the `k`-th item. */
  lemma {:induction false} BodyRowAt(items: seq<RawItem>, k: nat)
    requires BodyRows(items).Some? && 1 <= k <= |items|
    ensures Complete(items[k - 1]) && BodyRows(items).value[k - 1] == ItemRowOf(k, items[k - 1])
    decreases |items|
  {
    var n := |items|;
    var init := items[..n - 1];
    if k < n {
      BodyRowAt(init, k);
      assert init[k - 1] == items[k - 1];
    }
  }

  /** An invoice with no items still gets its header and three summary rows, all zero. */
  lemma EmptyTable(taxPercent: real)
    ensures Table([], taxPercent) == Some([Header(HeaderLabels), SubtotalRow(0.0), TaxRow(taxPercent, 0.0), GrandTotalRow(0.0)])
  {
    assert TaxAmount(0.0, taxPercent) == 0.0 && Total(0.0, taxPercent) == 0.0;
    assert [Header(HeaderLabels)] + [] + SummaryRows(0.0, taxPercent)
        == [Header(HeaderLabels), SubtotalRow(0.0), TaxRow(taxPercent, 0.0), GrandTotalRow(0.0)];
  }
}
