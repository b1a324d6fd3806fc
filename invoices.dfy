/** Invoice money: line totals, subtotal, tax and grand total, as computed when an invoice
    is created and recomputed from its stored item blob. */
module Invoices {
  import opened Wrappers
  import opened Calendar

  /** One entry of an item blob after JSON parsing; a field is None when its key is missing. */
  datatype RawItem = RawItem(name: Option<string>, qty: Option<real>, price: Option<real>)

  /** JSON parsing of an item blob: None where `json.loads` raises. */
  type Parser = string -> Option<seq<RawItem>>

  /** A stored invoice. `createdMonth` is the month of `created_at` (None when the column is
      null); `items` is the nullable JSON text column. */
  datatype Invoice = Invoice(
    clientName: string,
    createdMonth: Option<Month>,
    items: Option<string>,
    taxPercent: real)

  /** `json.loads(blob or "[]")`: a missing or empty blob reads as no items. */
  function LoadItems(blob: Option<string>, parse: Parser): (r: Option<seq<RawItem>>)
    ensures blob == None || blob == Some("") ==> r == Some([])
    ensures blob.Some? && blob.value != "" ==> r == parse(blob.value)
  {
    match blob
    case None => Some([])
    case Some(text) => if text == "" then Some([]) else parse(text)
  }

  // ---------------------------------------------------------------- arithmetic

  /** `subtotal * (tax_percent / 100)`. */
  function TaxAmount(subtotal: real, taxPercent: real): real {
    subtotal * (taxPercent / 100.0)
  }

  /** `subtotal + subtotal * (tax_percent / 100)`: the grand total. */
  function Total(subtotal: real, taxPercent: real): real {
    subtotal + TaxAmount(subtotal, taxPercent)
  }

  /** The tax is a percentage of the subtotal: none at 0%, never negative for a non-negative
      subtotal and rate, and the tax on a sum is the sum of the taxes. */
  lemma TaxAmountScales(subtotal: real, other: real, taxPercent: real)
    ensures TaxAmount(subtotal, 0.0) == 0.0
    ensures subtotal >= 0.0 && taxPercent >= 0.0 ==> TaxAmount(subtotal, taxPercent) >= 0.0
    ensures TaxAmount(subtotal + other, taxPercent) == TaxAmount(subtotal, taxPercent) + TaxAmount(other, taxPercent)
  {
  }

  /** The grand total scales the subtotal by `1 + tax/100`: no tax leaves it as it is, and
      a non-negative tax never lowers a non-negative subtotal. */
  lemma TotalScales(subtotal: real, taxPercent: real)
    ensures Total(subtotal, taxPercent) == subtotal * (1.0 + taxPercent / 100.0)
    ensures taxPercent == 0.0 ==> Total(subtotal, taxPercent) == subtotal
    ensures subtotal >= 0.0 && taxPercent >= 0.0 ==> Total(subtotal, taxPercent) >= subtotal
  {
    if subtotal >= 0.0 && taxPercent >= 0.0 {
      assert TaxAmount(subtotal, taxPercent) >= 0.0;
    }
  }

  /** What an item adds when missing keys count as 0 (`i.get("qty", 0) * i.get("price", 0)`). */
  function Amount(item: RawItem): real {
    item.qty.GetOr(0.0) * item.price.GetOr(0.0)
  }

  /** Both numeric keys present. */
  predicate Priced(item: RawItem) {
    item.qty.Some? && item.price.Some?
  }

  /** The sum of `Amount` over the items, added up front to back as Python's `sum` does. */
  function LenientSubtotal(items: seq<RawItem>): real
    decreases |items|
  {
    if items == [] then 0.0
    else LenientSubtotal(items[..|items| - 1]) + Amount(items[|items| - 1])
  }

  /** In the lenient sum items missing a key add nothing, and non-negative amounts give a
      non-negative sum. */
  lemma {:induction false} LenientSubtotalBounds(items: seq<RawItem>)
    ensures (forall k :: 0 <= k < |items| ==> !Priced(items[k])) ==> LenientSubtotal(items) == 0.0
    ensures (forall k :: 0 <= k < |items| ==> Amount(items[k]) >= 0.0) ==> LenientSubtotal(items) >= 0.0
    decreases |items|
  {
    if items != [] {
      var init := items[..|items| - 1];
      assert forall k :: 0 <= k < |init| ==> init[k] == items[k];
      LenientSubtotalBounds(init);
    }
  }

  /** `sum(i["qty"] * i["price"] for i in items)`: None where some item lacks a key (KeyError).
      Otherwise it is the sum of `qty * price`, so it agrees with the lenient sum. */
  function Subtotal(items: seq<RawItem>): (r: Option<real>)
    ensures r.Some? <==> forall k :: 0 <= k < |items| ==> Priced(items[k])
    ensures r.Some? ==> r.value == LenientSubtotal(items)
    decreases |items|
  {
    if items == [] then Some(0.0)
    else
      var last := items[|items| - 1];
      var init := Subtotal(items[..|items| - 1]);
      if init.Some? && last.qty.Some? && last.price.Some? then
        Some(init.value + last.qty.value * last.price.value)
      else
        None
  }

  /** `Invoice.subtotal()`: None where the blob does not parse or an item lacks a key. */
  function InvoiceSubtotal(inv: Invoice, parse: Parser): (r: Option<real>)
    ensures inv.items == None || inv.items == Some("") ==> r == Some(0.0)
    ensures r.Some? <==> LoadItems(inv.items, parse).Some? && Subtotal(LoadItems(inv.items, parse).value).Some?
  {
    match LoadItems(inv.items, parse)
    case None => None
    case Some(items) => Subtotal(items)
  }

  /** `Invoice.total()`: the subtotal plus its tax; with no tax it is the subtotal. */
  function InvoiceTotal(inv: Invoice, parse: Parser): (r: Option<real>)
    ensures r.Some? <==> InvoiceSubtotal(inv, parse).Some?
    ensures r.Some? ==> r.value == Total(InvoiceSubtotal(inv, parse).value, inv.taxPercent)
    ensures inv.taxPercent == 0.0 ==> r == InvoiceSubtotal(inv, parse)
  {
    match InvoiceSubtotal(inv, parse)
    case None => None
    case Some(s) => Some(s + s * (inv.taxPercent / 100.0))
  }

  // ---------------------------------------------------------------- order independence

  /** Removing the item at `k` takes exactly its amount off the lenient sum. */
  lemma {:induction false} LenientRemove(items: seq<RawItem>, k: nat)
    requires k < |items|
    ensures LenientSubtotal(items) == LenientSubtotal(items[..k] + items[k + 1..]) + Amount(items[k])
    decreases |items|
  {
    var n := |items|;
    var rest := items[..k] + items[k + 1..];
    if k == n - 1 {
      assert rest == items[..n - 1];
    } else {
      var init := items[..n - 1];
      LenientRemove(init, k);
      assert rest[..|rest| - 1] == init[..k] + init[k + 1..];
      assert rest[|rest| - 1] == items[n - 1];
    }
  }

  /** An item missing `qty` or `price` adds nothing to the lenient sum, whatever the other
      items are: dropping it leaves the sum as it was. */
  lemma UnpricedAddsNothing(items: seq<RawItem>, k: nat)
    requires k < |items| && !Priced(items[k])
    ensures LenientSubtotal(items) == LenientSubtotal(items[..k] + items[k + 1..])
  {
    LenientRemove(items, k);
    assert Amount(items[k]) == 0.0;
  }

  /** Item order does not change the lenient sum. */
  lemma {:induction false} LenientPermutation(a: seq<RawItem>, b: seq<RawItem>)
    requires multiset(a) == multiset(b)
    ensures LenientSubtotal(a) == LenientSubtotal(b)
    decreases |a|
  {
    if a == [] {
      assert |b| == |multiset(b)| == 0;
    } else {
      var n := |a|;
      var x := a[n - 1];
      assert x in multiset(b);
      var k :| 0 <= k < |b| && b[k] == x;
      var rest := b[..k] + b[k + 1..];
      LenientRemove(b, k);
      assert b == b[..k] + [b[k]] + b[k + 1..];
      assert multiset(b) == multiset(b[..k]) + multiset{x} + multiset(b[k + 1..]);
      assert multiset(rest) == multiset(b[..k]) + multiset(b[k + 1..]);
      assert a == a[..n - 1] + [x];
      assert multiset(a) == multiset(a[..n - 1]) + multiset{x};
      assert multiset(a[..n - 1]) == multiset(a) - multiset{x};
      assert multiset(rest) == multiset(b) - multiset{x};
      LenientPermutation(a[..n - 1], rest);
    }
  }

  /** Item order does not change `Invoice.subtotal()`'s sum, nor whether it raises. */
  lemma SubtotalOrderIndependent(a: seq<RawItem>, b: seq<RawItem>)
    requires multiset(a) == multiset(b)
    ensures Subtotal(a) == Subtotal(b)
  {
    LenientPermutation(a, b);
    forall k | 0 <= k < |a| && !Priced(a[k]) ensures Subtotal(b).None? {
      assert a[k] in multiset(b);
    }
    forall k | 0 <= k < |b| && !Priced(b[k]) ensures Subtotal(a).None? {
      assert b[k] in multiset(a);
    }
  }

  // ---------------------------------------------------------------- invoice creation

  /** One item as the invoice form stores it: name, integer quantity, price and its total. */
  datatype LineItem = LineItem(name: string, qty: int, price: real, total: real)

  /** What the creation handler computes before saving. */
  datatype NewInvoice = NewInvoice(
    clientName: string,
    items: seq<LineItem>,
    taxPercent: real,
    subtotal: real,
    taxAmount: real,
    grandTotal: real)

  /** `sum(item["total"] for item in items)`: the stored line totals added up. */
  function SumOfTotals(items: seq<LineItem>): real
    decreases |items|
  {
    if items == [] then 0.0 else SumOfTotals(items[..|items| - 1]) + items[|items| - 1].total
  }

  /** The items as the blob reads back after `json.dumps`: every key present. */
  function AsRaw(items: seq<LineItem>): (r: seq<RawItem>)
    ensures |r| == |items|
    ensures forall k :: 0 <= k < |items| ==>
              r[k] == RawItem(Some(items[k].name), Some(items[k].qty as real), Some(items[k].price))
  {
    seq(|items|, k requires 0 <= k < |items| =>
      RawItem(Some(items[k].name), Some(items[k].qty as real), Some(items[k].price)))
  }

  /** The form handler: one item whose total is `qty * price`; the subtotal sums the item
      totals, the tax is a percentage of it and the grand total adds the two. */
  function CreateInvoice(clientName: string, itemName: string, qty: int, price: real, taxPercent: real)
    : (inv: NewInvoice)
    ensures inv.clientName == clientName && inv.taxPercent == taxPercent
    ensures inv.items == [LineItem(itemName, qty, price, qty as real * price)]
    ensures inv.subtotal == qty as real * price
    ensures inv.taxAmount == TaxAmount(inv.subtotal, taxPercent)
    ensures inv.grandTotal == inv.subtotal + inv.taxAmount
    ensures inv.grandTotal == Total(inv.subtotal, taxPercent)
    ensures taxPercent == 0.0 ==> inv.taxAmount == 0.0 && inv.grandTotal == inv.subtotal
  {
    var items := [LineItem(itemName, qty, price, qty as real * price)];
    assert items[..0] == [] && SumOfTotals([]) == 0.0;
    var subtotal := SumOfTotals(items);
    var taxAmount := subtotal * (taxPercent / 100.0);
    NewInvoice(clientName, items, taxPercent, subtotal, taxAmount, subtotal + taxAmount)
  }

  /** Whenever each stored total is `qty * price`, summing stored totals and recomputing from
      quantities and prices agree. */
  lemma StoredTotalsAgree(items: seq<LineItem>)
    requires forall k :: 0 <= k < |items| ==> items[k].total == items[k].qty as real * items[k].price
    ensures Subtotal(AsRaw(items)) == Some(SumOfTotals(items))
  {
    StoredAmounts(items);
  }

  /** The lenient sum over the stored items is the sum of their stored totals. */
  lemma {:induction false} StoredAmounts(items: seq<LineItem>)
    requires forall k :: 0 <= k < |items| ==> items[k].total == items[k].qty as real * items[k].price
    ensures LenientSubtotal(AsRaw(items)) == SumOfTotals(items)
    decreases |items|
  {
    if items != [] {
      var init := items[..|items| - 1];
      var raw := AsRaw(items);
      StoredAmounts(init);
      assert raw[..|raw| - 1] == AsRaw(init);
      assert Amount(raw[|raw| - 1]) == items[|items| - 1].total;
    }
  }

  /** The totals computed at creation are what `Invoice.subtotal()` and `Invoice.total()`
      recompute from the saved blob, given a parser that reads back what was written. */
  lemma CreationMatchesRecomputation(
    clientName: string, itemName: string, qty: int, price: real, taxPercent: real,
    inv: Invoice, parse: Parser)
    requires inv.taxPercent == taxPercent
    requires LoadItems(inv.items, parse)
          == Some(AsRaw(CreateInvoice(clientName, itemName, qty, price, taxPercent).items))
    ensures InvoiceSubtotal(inv, parse) == Some(CreateInvoice(clientName, itemName, qty, price, taxPercent).subtotal)
    ensures InvoiceTotal(inv, parse) == Some(CreateInvoice(clientName, itemName, qty, price, taxPercent).grandTotal)
  {
    var created := CreateInvoice(clientName, itemName, qty, price, taxPercent);
    StoredTotalsAgree(created.items);
  }

  /** A worked example: two at 100.00 with 18% tax. */
  lemma CreationExample()
    ensures var inv := CreateInvoice("Acme", "Widget", 2, 100.0, 18.0);
            inv.subtotal == 200.0 && inv.taxAmount == 36.0 && inv.grandTotal == 236.0
  {
  }

  /** An invoice with no items has subtotal and total 0. */
  lemma EmptyInvoiceIsZero(inv: Invoice, parse: Parser)
    requires inv.items == None || inv.items == Some("")
    ensures InvoiceSubtotal(inv, parse) == Some(0.0) && InvoiceTotal(inv, parse) == Some(0.0)
  {
  }
}
