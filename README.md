# CRM-Pro-Flask core, modelled in Dafny

This project models the few pieces of real logic in the CRM-Pro-Flask web application. The
routing, database and PDF layers around them are left out. The pieces are:

- **Roles** (`roles.dfy`): the `RoleEnum` values and `User.has_role`, where Admin has every role.
  It also covers the decision inside `role_required`: 401 for an anonymous request, 403 for an
  authenticated user whose role is not listed and who is not Admin, and otherwise the wrapped
  view runs with its original arguments.
- **Share link** (`share_link.dfy`): the WhatsApp link for a quotation.
  - The message is five lines. Newlines inside a line become spaces, and the lines are joined
    by `%0A`.
  - The phone is trimmed with Python's `str.strip` whitespace set. A leading `+` is dropped and
    spaces removed. Otherwise only the digits are kept, with `91` prefixed to exactly ten of them.
  - The link is `https://wa.me/<phone>?text=<text>`.
- **Invoice money** (`invoices.dfy`): the strict `Invoice.subtotal` and `Invoice.total`, where
  a missing `qty` or `price` key raises. Also the single-item totals computed when an invoice
  is created.
- **Invoice PDF table** (`invoice_table.dfy`): the loop in `invoice_pdf`. It builds a header
  row, one 1-based row per item and three summary rows, while accumulating the subtotal.
- **Sales report** (`reports.dfy`): the `reports` loop.
  - A blob that fails to parse counts as no items, and missing keys count as 0.
  - It keeps a running total of invoice totals and adds each dated invoice's total to its
    month's bucket.
  - It then builds the Jan..Dec chart series.
- **Dashboard** (`dashboard.dfy`): two twelve-slot count lists that start at zero. They are
  filled from grouped `(month, count)` query rows, through a local array.

Shared pieces live in `wrappers.dfy`: `Option`, the `Month` type (1..12) and the month names.

Inputs the model takes as parameters:
- Parsing a stored item blob (`json.loads`) is a `Parser` that returns `None` where the real
  parser raises.
- The text of a quotation's nullable website price is an `Option<real> -> string` parameter. A null price renders as `None`, and a number renders as `str(float)`.
- Query results are input sequences: invoice records, and `(month, count)` rows.

Money is `real`, so sums are exact. Every sum is a left fold in the order Python adds.

Two facts about the code that the model keeps:
- No amount is ever rounded; only the display formatting, which is not modelled, shows two decimals.
- The `91` country prefix is hard-coded in `share_quotation`.

## Model

| member | source | states |
|---|---|---|
| Roles.Role.Value | app/models.py:8-12 | the enum value is the role's own name; it is "Admin" exactly for Admin |
| Roles.ValueInjective | app/models.py:8-12 | distinct roles have distinct values |
| Roles.HasRole | app/models.py:26-27 | an Admin user has every role, including strings that are not enum values; a non-Admin user has a role exactly when it is their own |
| Roles.Authorize | app/utils.py:10-14 | 401 exactly when anonymous; allow exactly when authenticated and the role is listed or Admin; 403 exactly when authenticated, not listed and not Admin |
| Roles.DecoratedView | app/utils.py:9-16 | the view runs exactly when the decision is allow, and then with the original arguments and its own result; an anonymous request gets 401 and never runs the view; any abort is 401 or 403 |
| Roles.AnyHasRoleIff | app/models.py:26-27 | for a non-empty role list, some listed role is held exactly when the role is listed or the user is Admin |
| Roles.GuardIsDisjunctionOfHasRole | app/utils.py:13 | for a non-empty list the guard allows exactly when `has_role` holds for some listed role; for one role it equals `has_role` of that role |
| Roles.EmptyRoleListAdmitsOnlyAdmin | app/utils.py:13 | with no roles listed only Admin gets through, although no `has_role` disjunct holds |
| Roles.MoreRolesNeverDeny | app/utils.py:13 | a request allowed for some role list is allowed for every list containing those roles |
| ShareLink.TrimStart | app/routes.py:208 | removes a prefix made only of whitespace and leaves no leading whitespace |
| ShareLink.TrimEnd | app/routes.py:208 | removes a suffix made only of whitespace and leaves no trailing whitespace |
| ShareLink.Strip | app/routes.py:208 | the result is the slice of the input from its first non-whitespace character to its last one; only whitespace is cut off on either side, and the result has whitespace at neither end |
| ShareLink.DigitsIgnoreStrip | app/routes.py:208-213 | trimming never changes the digits of a phone number |
| ShareLink.NormalizePhone | app/routes.py:208-217 | after a leading `+` the rest of the trimmed number with spaces removed (no space left); otherwise `91` plus the digits when there are exactly ten, else the digits alone, and then only digits; defined for every input |
| ShareLink.NationalNormalizeIdempotent | app/routes.py:212-217 | normalising a national result again changes nothing |
| ShareLink.NationalOfDigits | app/routes.py:212-217 | a number made of digits only becomes `91` plus those digits when there are ten of them (9876543210 gives 919876543210), and stays as it is otherwise |
| ShareLink.InternationalExample | app/routes.py:208-211 | `+` followed by blank-separated groups becomes the groups run together (+1 415 555 0100 gives 14155550100) |
| ShareLink.DetailsText | app/routes.py:204 | absent or empty details become the em dash; otherwise the details themselves |
| ShareLink.MessageLines | app/routes.py:200-206 | the message has exactly five lines |
| ShareLink.Flatten | app/routes.py:207 | same length as the line and no newline left |
| ShareLink.Join | app/routes.py:207 | every character of the joined text comes from the separator or from one of the parts |
| ShareLink.FlattenAll | app/routes.py:207 | every line is flattened and the order of the lines is kept |
| ShareLink.MessageText | app/routes.py:207 | the message text contains no newline |
| ShareLink.FlattenedLines | app/routes.py:200-207 | each flattened line is its fixed label followed by the flattened field |
| ShareLink.MessageTextLayout | app/routes.py:200-207 | the text is the five flattened lines separated by `%0A`, with greeting, intro and labels in place |
| ShareLink.ShareUrlReadsBack | app/routes.py:208-218 | when the phone holds no `?` (always so for a national number), the link's first `?` comes right after `https://wa.me/` and the normalised phone, and what follows it is `text=` and the message text, so phone and text read back from the link |
| Invoices.LoadItems | app/models.py:72 | an absent or empty blob loads as no items; otherwise the blob is parsed |
| Invoices.TaxAmountScales | app/routes.py:237-238 | the tax is 0 at 0%, never negative for a non-negative subtotal and rate, and the tax on a sum is the sum of the taxes |
| Invoices.TotalScales | app/models.py:75-77 | total is subtotal times (1 + tax/100); equal to the subtotal at tax 0; never below a non-negative subtotal at non-negative tax |
| Invoices.LenientSubtotalBounds | app/routes.py:402 | in the report's sum, a list none of whose items has both `qty` and `price` sums to 0, and non-negative amounts give a non-negative sum |
| Invoices.UnpricedAddsNothing | app/routes.py:402 | an item missing `qty` or `price` adds nothing to the report's sum even among priced items: dropping it leaves the sum unchanged |
| Invoices.Subtotal | app/models.py:73 | defined exactly when every item has both `qty` and `price`; then the sum of qty*price in item order |
| Invoices.InvoiceSubtotal | app/models.py:70-73 | 0 for absent or empty items; it fails exactly when the blob does not parse or an item lacks a key |
| Invoices.InvoiceTotal | app/models.py:75-77 | defined exactly when the subtotal is; then the subtotal with tax applied; equal to the subtotal at tax 0 |
| Invoices.LenientPermutation | app/routes.py:402 | reordering the items never changes the sum of qty*price |
| Invoices.SubtotalOrderIndependent | app/models.py:73 | reordering the items changes neither the subtotal nor whether it fails |
| Invoices.CreateInvoice | app/routes.py:228-238 | one item carrying the submitted values with total qty*price; the subtotal is that total; the tax amount is subtotal*tax/100; the grand total is subtotal plus tax amount; at tax 0 the tax amount is 0 and the grand total is the subtotal |
| Invoices.StoredTotalsAgree | app/routes.py:228-236 | when every item's stored total is qty*price, the sum of stored totals equals the subtotal recomputed from qty and price |
| Invoices.CreationMatchesRecomputation | app/routes.py:228-242 | an invoice stored from the creation form later yields the same subtotal and total from `Invoice.subtotal`/`total` |
| Invoices.CreationExample | app/routes.py:228-238 | 2 x 100 at 18% gives subtotal 200, tax 36 and grand total 236 |
| Invoices.EmptyInvoiceIsZero | app/models.py:70-77 | an invoice with absent or empty items has subtotal 0 and total 0 |
| InvoiceTable.BodyRows | app/routes.py:322-331 | item rows exist exactly when every item has name, qty and price; there is one row per item |
| InvoiceTable.SummaryRows | app/routes.py:333-339 | three rows: the subtotal, the tax row with the invoice's rate, and a grand total equal to subtotal plus tax; at 0% the tax is 0 and the grand total is the subtotal |
| InvoiceTable.BuildTable | app/routes.py:274-339 | the loop's rows and accumulated subtotal give exactly the specified table; a blob that does not parse or a null `created_at` (its date line raises first) gives no table |
| InvoiceTable.TableLayout | app/routes.py:319-339 | header row, then item k as row k numbered k in item order, then subtotal (the sum of qty*price), tax (subtotal*tax/100) and grand total (the creation formula); n + 4 rows |
| InvoiceTable.BodyRowAt | app/routes.py:322-331 | row k describes item k, with index k, starting at 1 |
| InvoiceTable.EmptyTable | app/routes.py:319-339 | no items give the header and three zero summary rows |
| Reports.ReportItems | app/routes.py:398-401 | a blob that fails to parse is read as no items |
| Reports.SalesValues | app/routes.py:419-421 | twelve values, the month buckets in Jan..Dec order |
| Reports.MonthlyMapMeaning | app/routes.py:406-409 | a month is a key exactly when some invoice is dated in it; its value is the sum of the totals of the invoices dated in that month |
| Reports.EmptyMonthlyMap | app/routes.py:395 | no invoices give an empty month map |
| Reports.AggregateSales | app/routes.py:393-409 | the loop's running total is the sum of all invoice totals, and its dict is the month map |
| Reports.ChartSeries | app/routes.py:412-421 | month names Jan..Dec; each value is that month's bucket, or 0 when it has none |
| Reports.SalesReport | app/routes.py:393-421 | the total, the month names and the twelve per-month sums |
| Reports.NoInvoiceNoSales | app/routes.py:419-421 | a month with no dated invoice has sales 0 |
| Reports.BucketsSumToTotal | app/routes.py:403-421 | when every invoice is dated, the twelve buckets add up to the total |
| Reports.MalformedContributesZero | app/routes.py:398-404 | an invoice whose blob does not parse contributes 0 |
| Reports.MalformedIsSkipped | app/routes.py:397-409 | dropping such an invoice changes neither the total nor any month's sales |
| Reports.ReportAgreesWithInvoiceTotal | app/routes.py:402-403 | `Invoice.total()` succeeds exactly when the blob parses and every item has `qty` and `price`, and then the report's per-invoice total equals it |
| Dashboard.MonthCounts | app/routes.py:41-55 | twelve slots; slot m-1 holds the count of the last row for month m, or 0; fails exactly when a row has no month |
| Dashboard.DashboardCounts | app/routes.py:41-65 | both count lists as above; fails exactly when either query yields an undated row |
| Dashboard.ReportedMonthCount | app/routes.py:52-55 | for grouped rows (each month once), slot m-1 holds the count reported for month m |
| Dashboard.UnreportedMonthIsZero | app/routes.py:42-43 | a month no row reports keeps its initial 0 |

## Left out

- Flask routing, `redirect`, `flash`, templates, flask_login sessions and werkzeug password hashing are web plumbing. The current user is the `Session` parameter.
- SQLAlchemy queries and commits are library calls. `Invoice.query.all()` becomes a sequence of invoice records. The `GROUP BY strftime('%m', …)` queries become sequences of `(month, count)` rows.
- The ReportLab build (fonts, styles, column widths, `doc.build`) and the output file path are library calls and file I/O. Only the logical rows of the table are modelled.
- Python floats and the `:.2f`, `₹` and `str(float)` formatting are not modelled. Money is an exact `real`. The text of a quotation's nullable price is an abstract function of an `Option<real>`, so a null price (rendered `None`) is covered but not spelled out.
- `json.loads`/`json.dumps` are not modelled, so the JSON syntax is not modelled. Parsing is an abstract `Parser`, and creation followed by reading back assumes the parse returns the stored items.
- Invoices.RawItem: an absent `qty`, `price` or `name` key is `None`. A `qty` or `price` holding a JSON boolean is a Python `int`, so `true` counts as 1 and `false` as 0. The model covers this as `Some(1.0)` or `Some(0.0)`. A `qty` or `price` holding `null`, an object, or a string or a list multiplied by a non-integer raises at the product. A string or a list multiplied by an integer gives a sequence, which raises at the addition that follows (`sum` or `+=`). Either way the source raises, and that case is not represented. A `name` holding `null` would print as `None` in the PDF and is not represented either. Neither is an item that is not an object.
- Invoices.Parser: a blob that parses to a top-level JSON value other than an array is not represented. Examples are `null`, a number, `true`, a string or an object. `json.loads` does not raise on them, so the `except` in `reports` (app/routes.py:398-401) does not catch them. Iterating over the value then raises. Over `null`, a number or a boolean the `for` itself fails. Over a string or a non-empty object it yields strings, and `.get` on a string fails. That failure is outside the `try`, so the whole report fails. `Invoice.subtotal()` (app/models.py:72-73) and `invoice_pdf` (app/routes.py:321-322) raise too. The exceptions are `{}` and the empty JSON string, which iterate over nothing and read as no items. A `Parser` returns `None` only where `json.loads` raises, so Reports.MalformedIsSkipped and Reports.MalformedContributesZero are about those blobs alone.
- ShareLink.Digits: `str.isdigit` is modelled as the ASCII digits 0-9. The Unicode digits it also accepts are not.
- A NULL `tax_percent` is not represented. Dividing it by 100 raises in `Invoice.total()`, in the PDF and in the report.
- Roles.User: a NULL `role` is not represented. In the source it matches no listed role and is not "Admin", so such a user gets 403, and `has_role` is false for every role.
- Dashboard.MonthCounts: the month value is taken as already converted from the `'01'`..`'12'` text that SQLite returns.
- The `subtotal=`/`total=` arguments passed when an invoice is built are not stored: `Invoice` defines those names as methods, not columns.
- The unused `months = list(range(1, 13))` in the dashboard has no effect.
- app/forms.py validators are not preconditions here. No sign or range check is assumed on quantities, prices or tax.
- seed.py, config.py and app/__init__.py are setup code and are not part of this model.
