# GST billing application — a verified Dafny model

This project models the calculation core of a Spring Boot GST (Indian Goods
and Services Tax) billing application and proves properties of it:

- the invoice line (`InvoiceItem`), whose setters recompute the line's GST
  and total each time, and the invoice (`Invoice`) with its item list,
  `addItem`/`removeItem` and the `@PrePersist` defaults;
- `InvoiceService`: building an invoice from a request (one item per
  request line, totals summed over the items), updating one (owner-or-admin
  rule, customer replacement, item replacement), deleting one, the invoice
  number, the per-user statistics and the month / day revenue maps;
- `InvoiceController`: the per-rate GST breakdown of an invoice with its
  CGST/SGST halves, and the guards of the create form;
- `InvoiceRepository`: the `SUM` and `GROUP BY ... ORDER BY` queries over
  stored invoices;
- `AdminController`: the admin dashboard's revenue loop, the five most
  recent invoices, the monthly chart, the self-delete guard, the customer
  and product statistics and the per-creator customer distribution;
- `DashboardService`: the month and day chart labels and values, where
  `isAdmin` selects the all-users query.

Money is exact: every `BigDecimal` of the application has scale 2, so an
amount is an integer number of hundredths (`Money.Cents`) and a GST rate an
integer number of hundredths of a percent (`Money.BasisRate`, 18 % is 1800).
The one rounding the application does, `divide(.., 2, HALF_UP)`, is
`Money.RoundHalfUp`. A line's GST is `RoundHalfUp(price * quantity * rate,
10000)` hundredths. The two tax halves are `RoundHalfUp(gst, 2)`.

Entities whose fields the source updates in place are classes:
`Model.InvoiceItem`, `Model.Invoice`, `InvoiceController.GstBreakdown` and
`AdminController.UserDistribution`. Their methods carry `modifies` clauses
and state the whole new state. Stored invoices, as the repository queries
see them, are values (`InvoiceRepository.InvoiceRow`). The database, the clock and the
random source are parameters: the catalogue and customer maps, `millis`,
`random`, `today` and `now`.

Modules follow the source's packages: `Model` (model/), `InvoiceRepository`,
`InvoiceService`, `DashboardService`, `InvoiceController` and
`AdminController`. They rest on `Money`, `Arith`, `Text` (`String.valueOf`,
`substring`, `trim`), `Calendar` (`LocalDate`, `Month`), `GroupBy` (SQL
`GROUP BY ... ORDER BY` with `SUM`), `Sorting` (the library sorts) and
`Wrappers` (null as `Option`, exceptions as `Result`).

## Model

| member | source | states |
|---|---|---|
| Money.RoundHalfUpNearest | src/main/java/com/gst/billing/model/InvoiceItem.java:56 | HALF_UP division gives the integer nearest to n/d, with ties sent away from zero, for either sign of n |
| Money.RoundHalfUpUnique | src/main/java/com/gst/billing/model/InvoiceItem.java:56 | any integer within half a unit of n/d on the HALF_UP side is the rounded value, so the rounding is determined by that property |
| Money.RoundHalfUpNonNegative | src/main/java/com/gst/billing/model/InvoiceItem.java:56 | rounding a non-negative amount never gives a negative one |
| Money.LineGstError | src/main/java/com/gst/billing/model/InvoiceItem.java:55-57 | the stored GST is within half a paisa of taxable * rate / 100; it is non-negative for non-negative inputs, so the total is at least the taxable value |
| Money.HalfShareSplit | src/main/java/com/gst/billing/controller/InvoiceController.java:260-266 | twice a CGST/SGST share differs from the GST by at most one paisa, by exactly GST mod 2 for non-negative GST |
| Arith.MulIsProduct | src/main/java/com/gst/billing/model/InvoiceItem.java:55 | the recursive product used for price * quantity is integer multiplication |
| Text.PadDigitsLength | src/main/java/com/gst/billing/service/InvoiceService.java:74 | the zero-padded digit string has exactly the requested width |
| Text.DecimalStringLength | src/main/java/com/gst/billing/service/InvoiceService.java:72-73 | `String.valueOf(n)` is non-empty and longer than k characters exactly when n >= 10^k |
| Text.DecimalStringInjective | src/main/java/com/gst/billing/service/InvoiceService.java:73 | distinct numbers print differently |
| Text.PadDigitsInjective | src/main/java/com/gst/billing/service/InvoiceService.java:74 | within w digits, distinct numbers have distinct padded forms |
| Text.DecimalSuffix | src/main/java/com/gst/billing/service/InvoiceService.java:74 | the last w characters of `String.valueOf(n)` are n mod 10^w padded to w digits |
| Text.BlankMeansNoVisibleChar | src/main/java/com/gst/billing/controller/AdminController.java:192-196 | `s.trim().isEmpty()` holds exactly when s has no character above U+0020 |
| Text.TrimStartFirst | src/main/java/com/gst/billing/controller/AdminController.java:193 | after trimming the front, the string is empty or starts with a visible character |
| Calendar.DateOrdinalOrder | src/main/java/com/gst/billing/repository/InvoiceRepository.java:63-64 | the date ordinal orders dates chronologically and tells distinct dates apart, both directions |
| Calendar.MonthNamesRoundTrip | src/main/java/com/gst/billing/service/InvoiceService.java:257-259 | reading back the full month name and the three-letter name of a month gives the month again |
| Calendar.FullNameRoundTrip | src/main/java/com/gst/billing/controller/AdminController.java:88 | `Month.valueOf(Month.of(m).name()) == m` |
| Calendar.ShortNameRoundTrip | src/main/java/com/gst/billing/service/InvoiceService.java:258 | the three-letter name has three characters and identifies its month |
| Calendar.MonthNamesDistinct | src/main/java/com/gst/billing/service/DashboardService.java:28 | distinct months have distinct full and short names, both directions |
| Calendar.IsoDateInjective | src/main/java/com/gst/billing/service/DashboardService.java:53 | `LocalDate.toString()` is ten characters and distinct dates give distinct strings, both directions |
| Model.RoleName | src/main/java/com/gst/billing/controller/AdminController.java:204 | the role's name is "ADMIN" exactly for the admin role |
| Model.Calculated | src/main/java/com/gst/billing/model/InvoiceItem.java:53-62 | `calculateAmounts` keeps price, quantity and rate and produces a consistent line |
| Model.ConsistentIsCalculated | src/main/java/com/gst/billing/model/InvoiceItem.java:53-62 | a line is consistent (GST and total as calculated from its inputs) exactly when it equals the recalculated line |
| Model.LineAmountBounds | src/main/java/com/gst/billing/model/InvoiceItem.java:55-57 | for non-negative inputs a calculated line has non-negative GST, a total at least its subtotal, and GST within half a paisa of subtotal * rate / 100 |
| Model.ConsistentLinesTotal | src/main/java/com/gst/billing/service/InvoiceService.java:63-65 | over consistent lines, the sum of line totals is the subtotal plus the GST |
| Model.InvoiceItem.constructor | src/main/java/com/gst/billing/model/InvoiceItem.java:23-40 | a new item has quantity 1, all amounts zero, no invoice and no product, and is consistent |
| Model.InvoiceItem.WithProduct | src/main/java/com/gst/billing/model/InvoiceItem.java:42-50 | the item takes the product's price and rate (zero without a product) and a null quantity becomes 1, and amounts are calculated |
| Model.InvoiceItem.CalculateAmounts | src/main/java/com/gst/billing/model/InvoiceItem.java:53-62 | the inputs stay and GST and total become those of the calculated line |
| Model.InvoiceItem.Subtotal | src/main/java/com/gst/billing/model/InvoiceItem.java:139-144 | `getSubtotal` is price * quantity, and on a consistent item the total is subtotal + GST |
| Model.InvoiceItem.SetInvoice | src/main/java/com/gst/billing/model/InvoiceItem.java:77-79 | only the back-reference changes |
| Model.InvoiceItem.SetProduct | src/main/java/com/gst/billing/model/InvoiceItem.java:85-92 | a product replaces price and rate and recalculates; a null product changes nothing else |
| Model.InvoiceItem.SetQuantity | src/main/java/com/gst/billing/model/InvoiceItem.java:98-101 | a null quantity becomes 1, the line is recalculated, price and rate stay |
| Model.InvoiceItem.SetUnitPrice | src/main/java/com/gst/billing/model/InvoiceItem.java:107-110 | a null price becomes zero, the line is recalculated, quantity and rate stay |
| Model.InvoiceItem.SetGstRate | src/main/java/com/gst/billing/model/InvoiceItem.java:116-119 | a null rate becomes zero, the line is recalculated, price and quantity stay |
| Model.InvoiceItem.SetGstAmount | src/main/java/com/gst/billing/model/InvoiceItem.java:125-127 | the raw setter keeps a consistent item consistent exactly when it writes the GST already stored |
| Model.InvoiceItem.SetTotalAmount | src/main/java/com/gst/billing/model/InvoiceItem.java:133-135 | the raw setter keeps a consistent item consistent exactly when it writes the total already stored |
| Model.Views | src/main/java/com/gst/billing/model/Invoice.java:44-45 | the lines of an item list, one per item, in list order |
| Model.RemoveFirstAbsent | src/main/java/com/gst/billing/model/Invoice.java:57-60 | `List.remove` of an item that is not in the list leaves the list unchanged |
| Model.RemoveFirstAt | src/main/java/com/gst/billing/model/Invoice.java:57-60 | `List.remove` cuts out the first occurrence and keeps the rest in order |
| Model.Invoice.constructor | src/main/java/com/gst/billing/model/Invoice.java:18-49 | a new invoice has no number, date, customer, user or creation time, zero totals and no items |
| Model.Invoice.AddItem | src/main/java/com/gst/billing/model/Invoice.java:52-55 | the item is appended and points back to this invoice |
| Model.Invoice.RemoveItem | src/main/java/com/gst/billing/model/Invoice.java:57-60 | the first occurrence of the item leaves the list and its back-reference is cleared |
| Model.Invoice.OnCreate | src/main/java/com/gst/billing/model/Invoice.java:63-71 | the creation time and the date are set to now and today only when they were null |
| Model.Defaulted | src/main/java/com/gst/billing/model/Invoice.java:65-70 | the defaulted field is always present and keeps a value it already had |
| InvoiceRepository.ForUser | src/main/java/com/gst/billing/repository/InvoiceRepository.java:47 | `WHERE i.user = :user` keeps exactly the user's invoices |
| InvoiceRepository.TotalSalesByUser | src/main/java/com/gst/billing/repository/InvoiceRepository.java:47-48 | `COALESCE(SUM(totalAmount), 0)`: zero for a user without invoices |
| InvoiceRepository.TotalGstByUser | src/main/java/com/gst/billing/repository/InvoiceRepository.java:50-51 | `COALESCE(SUM(totalGst), 0)`: zero for a user without invoices |
| InvoiceRepository.CountByUser | src/main/java/com/gst/billing/repository/InvoiceRepository.java:35 | `countByUser` is zero exactly when the user has no invoice, and at most the number of invoices |
| InvoiceRepository.PairsTotal | src/main/java/com/gst/billing/repository/InvoiceRepository.java:67-68 | the (key, amount) pairs fed to the grouping hold the total sales |
| InvoiceRepository.PairsSumFor | src/main/java/com/gst/billing/repository/InvoiceRepository.java:67-71 | the sum of the pairs with a key is the sales of the invoices with that key |
| InvoiceRepository.PairsKeys | src/main/java/com/gst/billing/repository/InvoiceRepository.java:67-71 | the keys of the pairs are the keys of the invoices |
| InvoiceRepository.MonthRankInjective | src/main/java/com/gst/billing/repository/InvoiceRepository.java:67 | `ORDER BY MONTH(...)` orders by a key that tells months apart |
| InvoiceRepository.DateRankInjective | src/main/java/com/gst/billing/repository/InvoiceRepository.java:70 | `ORDER BY DATE(...)` orders by a key that tells dates apart |
| InvoiceRepository.MonthlyRevenueSpec | src/main/java/com/gst/billing/repository/InvoiceRepository.java:67-68 | one row per month present, strictly ascending by month, each the sales of that month's invoices; the rows add up to total sales; no rows exactly when no invoices |
| InvoiceRepository.MonthlyRevenueTotal | src/main/java/com/gst/billing/repository/InvoiceRepository.java:67-68 | the monthly rows add up to the total sales |
| InvoiceRepository.DailyRevenueSpec | src/main/java/com/gst/billing/repository/InvoiceRepository.java:70-71 | one row per date present, in chronological order, each the sales of that day; the rows add up to total sales; no rows exactly when no invoices |
| InvoiceRepository.RevenueMatchesTotalSales | src/main/java/com/gst/billing/repository/InvoiceRepository.java:47-64 | a user's monthly rows and daily rows each add up to `getTotalSalesByUser` |
| InvoiceRepository.MonthlyRevenueMergesYears | src/main/java/com/gst/billing/repository/InvoiceRepository.java:67-68 | January 2024 and January 2025 come back as a single January row holding both sums |
| GroupBy.GroupSpec | src/main/java/com/gst/billing/repository/InvoiceRepository.java:59-71 | `GROUP BY k ORDER BY k` with `SUM`: buckets strictly ascending, one per distinct key, each holding its key's sum, all holding the total |
| GroupBy.GroupOrderIndependent | src/main/java/com/gst/billing/repository/InvoiceRepository.java:59-71 | the grouped result does not depend on the order of the stored rows |
| GroupBy.AscendingUnique | src/main/java/com/gst/billing/repository/InvoiceRepository.java:59-71 | two strictly ascending bucket lists with the same keys and sums are equal |
| GroupBy.GroupEntries | src/main/java/com/gst/billing/repository/InvoiceRepository.java:59-71 | every bucket's key occurs in the input and its total is that key's sum |
| GroupBy.GroupEmpty | src/main/java/com/gst/billing/repository/InvoiceRepository.java:59-71 | the grouping is empty exactly when the input is |
| GroupBy.SumOverKeysConserves | src/main/java/com/gst/billing/controller/InvoiceController.java:227-239 | summing per-key sums over any repeat-free listing of the keys gives the total |
| GroupBy.SumForPermutation | src/main/java/com/gst/billing/controller/InvoiceController.java:227-239 | a per-key sum is the same for any reordering of the pairs |
| GroupBy.ValuesOfBuckets | src/main/java/com/gst/billing/controller/AdminController.java:85-90 | the values read off the buckets, one each, add up to the buckets' total |
| Sorting.SortDescendingSpec | src/main/java/com/gst/billing/controller/AdminController.java:211 | the descending sort by count is ordered, a permutation of its input, and keeps the sum of counts |
| Sorting.SortedDistinctSpec | src/main/java/com/gst/billing/controller/AdminController.java:267-277 | the sorted rate list is strictly ascending, has exactly the input's values, and as many as the input has distinct values |
| InvoiceService.FindCustomer | src/main/java/com/gst/billing/service/InvoiceService.java:34 | succeeds exactly when the id is present and known, with that customer; fails with customer-not-found otherwise |
| InvoiceService.PlanItem | src/main/java/com/gst/billing/service/InvoiceService.java:47-55 | the planned line has the product's price and rate, the request's quantity or 1, and is consistent |
| InvoiceService.BuildItems | src/main/java/com/gst/billing/service/InvoiceService.java:46-60 | succeeds exactly when every request line names a known product, with one planned item per line in order; fails with product-not-found |
| InvoiceService.BuildItemsStep | src/main/java/com/gst/billing/service/InvoiceService.java:46-60 | one more request line extends a successful build by one planned item, or fails it |
| InvoiceService.BuiltItemsTotals | src/main/java/com/gst/billing/service/InvoiceService.java:59-65 | the built lines are consistent, so their totals add up to subtotal + GST; an empty request builds nothing |
| InvoiceService.LinesOfSnoc | src/main/java/com/gst/billing/service/InvoiceService.java:57 | appending an item appends its line |
| InvoiceService.NewRequestedItem | src/main/java/com/gst/billing/service/InvoiceService.java:49-55 | the new item points to the invoice and the product and carries the planned, consistent line |
| InvoiceService.AppendItem | src/main/java/com/gst/billing/service/InvoiceService.java:57-60 | the item is appended, the invoice holds the planned items so far, and the running sums grow by its subtotal and GST |
| InvoiceService.AddRequestedItem | src/main/java/com/gst/billing/service/InvoiceService.java:47-60 | one loop pass: a fresh item appended, and the sums grow by its subtotal and GST |
| InvoiceService.AddRequestedItems | src/main/java/com/gst/billing/service/InvoiceService.java:46-61 | the loop succeeds exactly when every product exists; the items are then exactly the planned ones, fresh, and the sums are the invoice's subtotal and GST |
| InvoiceService.ItemsAndTotals | src/main/java/com/gst/billing/service/InvoiceService.java:42-65 | the items are built and the totals set to their sums with total = subtotal + GST, or the build fails |
| InvoiceService.NewInvoiceHeader | src/main/java/com/gst/billing/service/InvoiceService.java:36-40 | a fresh invoice with the given number, date, customer and user, and no items |
| InvoiceService.SetTotals | src/main/java/com/gst/billing/service/InvoiceService.java:63-65 | the invoice's total amount is its subtotal plus its GST |
| InvoiceService.CreateInvoice | src/main/java/com/gst/billing/service/InvoiceService.java:32-68 | succeeds exactly when the customer exists, items are given and every product exists; error in that order of checks; the invoice is fresh, numbered, dated today, owned by the user, with the planned items and their totals, and saving it stamps the creation time now through `@PrePersist` |
| InvoiceService.ReplaceItems | src/main/java/com/gst/billing/service/InvoiceService.java:121-147 | the old items are cleared and replaced by the planned ones with recomputed totals, or the build fails |
| InvoiceService.UpdateInvoice | src/main/java/com/gst/billing/service/InvoiceService.java:106-150 | not found, not owner-or-admin and unknown customer fail without change; number, date, owner and creation time never change; a null or empty item list keeps items and totals; otherwise items and totals are rebuilt, and success is exactly every product existing |
| InvoiceService.FindById | src/main/java/com/gst/billing/service/InvoiceService.java:78-81 | finds a stored invoice with the id, and nothing exactly when there is none |
| InvoiceService.WithoutId | src/main/java/com/gst/billing/service/InvoiceService.java:162 | the stored invoices after deletion are exactly those with another id |
| InvoiceService.DeleteInvoice | src/main/java/com/gst/billing/service/InvoiceService.java:154-163 | succeeds exactly when the invoice exists and the caller owns it or is admin; the error is not-found before not-authorized; success removes exactly that id and shrinks the store |
| InvoiceService.WithoutIdShorter | src/main/java/com/gst/billing/service/InvoiceService.java:162 | deleting an existing id removes at least one invoice |
| InvoiceService.InvoiceNumber | src/main/java/com/gst/billing/service/InvoiceService.java:71-75 | the number is "INV-", six digits, "-" and one to three digits: 12 to 14 characters |
| InvoiceService.InvoiceNumberParts | src/main/java/com/gst/billing/service/InvoiceService.java:71-75 | the six digits are the clock's last six decimal digits, and the suffix is the random value's decimal form |
| InvoiceService.InvoiceNumberCollision | src/main/java/com/gst/billing/service/InvoiceService.java:71-75 | two numbers coincide exactly when the clocks agree modulo 10^6 and the random values are equal |
| InvoiceService.ReduceIsSum | src/main/java/com/gst/billing/service/InvoiceService.java:169-172 | the stream reductions from zero compute the sums of total amounts and of GST |
| InvoiceService.SumsFromFront | src/main/java/com/gst/billing/service/InvoiceService.java:169-172 | the sums split off their first invoice |
| InvoiceService.GetInvoiceStatistics | src/main/java/com/gst/billing/service/InvoiceService.java:166-177 | the statistics agree with `countByUser`, `getTotalSalesByUser` and `getTotalGstByUser` |
| InvoiceService.Put | src/main/java/com/gst/billing/service/InvoiceService.java:235-239 | `LinkedHashMap.put` keeps keys distinct and changes nothing but the entry for the key |
| InvoiceService.PutNewKey | src/main/java/com/gst/billing/service/InvoiceService.java:239 | putting a new key appends it at the end |
| InvoiceService.PutExistingKey | src/main/java/com/gst/billing/service/InvoiceService.java:239 | putting an existing key replaces its value in place |
| InvoiceService.MonthLabel | src/main/java/com/gst/billing/service/InvoiceService.java:257-259 | the label has three letters and names the month it came from |
| InvoiceService.PutRows | src/main/java/com/gst/billing/service/InvoiceService.java:235-241 | with distinct names, every row becomes its own entry, in row order |
| InvoiceService.GetMonthlyRevenue | src/main/java/com/gst/billing/service/InvoiceService.java:231-242 | one entry per row of the query `isAdmin` selects, labelled JAN..DEC, months strictly ascending |
| InvoiceService.AscendingDatesDistinctLabels | src/main/java/com/gst/billing/service/InvoiceService.java:250 | dates in ascending order have distinct ISO labels |
| InvoiceService.GetDailyRevenue | src/main/java/com/gst/billing/service/InvoiceService.java:244-255 | one entry per day of the query `isAdmin` selects, keyed by distinct ISO dates |
| DashboardService.MonthLabels | src/main/java/com/gst/billing/service/DashboardService.java:21-31 | one full month name per row of the selected query, in strictly ascending month order |
| DashboardService.MonthRevenue | src/main/java/com/gst/billing/service/DashboardService.java:33-42 | one value per row of the selected query; they add up to all sales for an admin and to the user's sales otherwise |
| DashboardService.DayLabels | src/main/java/com/gst/billing/service/DashboardService.java:47-56 | one ISO date per row of the selected query, without repeats |
| DashboardService.DayRevenue | src/main/java/com/gst/billing/service/DashboardService.java:58-67 | one value per day row; they add up to all sales for an admin and to the user's sales otherwise |
| DashboardService.MonthsAscend | src/main/java/com/gst/billing/repository/InvoiceRepository.java:59-60 | the monthly query lists its months in ascending order |
| DashboardService.MonthNamesAscend | src/main/java/com/gst/billing/service/DashboardService.java:28 | labels of ascending months name ascending months |
| DashboardService.DatesAscend | src/main/java/com/gst/billing/repository/InvoiceRepository.java:63-64 | the daily query lists its dates in chronological order |
| DashboardService.IsoDatesDistinct | src/main/java/com/gst/billing/service/DashboardService.java:53 | labels of ascending dates are pairwise distinct |
| DashboardService.ForUserAll | src/main/java/com/gst/billing/repository/InvoiceRepository.java:59-64 | when every invoice belongs to the user, the user filter keeps them all |
| DashboardService.OwnerSeesAdminCharts | src/main/java/com/gst/billing/service/DashboardService.java:21-67 | when one user owns every invoice, the user's charts equal the admin charts |
| DashboardService.RowLabels | src/main/java/com/gst/billing/service/DashboardService.java:25-29 | one label per result row, in row order |
| InvoiceController.GstBreakdown.constructor | src/main/java/com/gst/billing/controller/InvoiceController.java:243-244 | both sums start at zero |
| InvoiceController.GstBreakdown.AddItem | src/main/java/com/gst/billing/controller/InvoiceController.java:246-249 | the taxable and GST sums grow by the item's amounts |
| InvoiceController.GstBreakdown.Cgst | src/main/java/com/gst/billing/controller/InvoiceController.java:260-262 | CGST is half the GST, rounded HALF_UP to the paisa: twice it is within one paisa of the GST |
| InvoiceController.GstBreakdown.Sgst | src/main/java/com/gst/billing/controller/InvoiceController.java:264-266 | SGST equals CGST, so the two may exceed the GST by one paisa for an odd GST |
| InvoiceController.RatePairsKeys | src/main/java/com/gst/billing/controller/InvoiceController.java:230-235 | the keys the loop groups on are exactly the rates of the items |
| InvoiceController.RatePairsConcat | src/main/java/com/gst/billing/controller/InvoiceController.java:230-235 | the (rate, amount) pairs of joined item lists are the joined pairs |
| InvoiceController.TaxableTotal | src/main/java/com/gst/billing/controller/InvoiceController.java:232 | the taxable values of the items add up to the invoice's subtotal |
| InvoiceController.GstTotal | src/main/java/com/gst/billing/controller/InvoiceController.java:233 | the GST of the items adds up to the invoice's GST |
| InvoiceController.CalculateGstBreakdown | src/main/java/com/gst/billing/controller/InvoiceController.java:227-239 | one fresh accumulator per rate present, distinct for distinct rates, each holding the taxable and GST sums of exactly the items with that rate |
| InvoiceController.FoldItem | src/main/java/com/gst/billing/controller/InvoiceController.java:231-235 | one loop pass keeps the breakdown an accurate accumulation of the items seen |
| InvoiceController.ComputeIfAbsentAdd | src/main/java/com/gst/billing/controller/InvoiceController.java:235 | `computeIfAbsent(..).addItem(..)`: a fresh accumulator for a new rate, the rate's sums grow, other rates untouched |
| InvoiceController.RateAbsent | src/main/java/com/gst/billing/controller/InvoiceController.java:235 | a rate no item has sums to zero |
| InvoiceController.RatesSnoc | src/main/java/com/gst/billing/controller/InvoiceController.java:231 | one more item adds its rate to the rates seen |
| InvoiceController.RateSumSnoc | src/main/java/com/gst/billing/controller/InvoiceController.java:235 | one more item adds to the sums of its own rate and no other |
| InvoiceController.BreakdownConserves | src/main/java/com/gst/billing/controller/InvoiceController.java:227-239 | the per-rate sums, over any repeat-free listing of the rates, add up to the invoice's subtotal and GST |
| InvoiceController.RatePairsPermutation | src/main/java/com/gst/billing/controller/InvoiceController.java:230 | reordering the items reorders the rate pairs |
| InvoiceController.BreakdownOrderIndependent | src/main/java/com/gst/billing/controller/InvoiceController.java:227-239 | the breakdown's rates and per-rate sums do not depend on the order of the items |
| InvoiceController.SubmitCreate | src/main/java/com/gst/billing/controller/InvoiceController.java:75-142 | validation errors and a null or empty item list return the form without creating; otherwise an invoice is created exactly when the service succeeds, and a failure shows the service's error |
| AdminController.TotalRevenue | src/main/java/com/gst/billing/controller/AdminController.java:61-65 | the loop's revenue is the sum of all total amounts, the same as the stream reduction |
| AdminController.InvoiceTotals | src/main/java/com/gst/billing/controller/AdminController.java:168-170 | the stream reductions are the sums of total amounts and of GST |
| AdminController.RecentInvoices | src/main/java/com/gst/billing/controller/AdminController.java:68-70 | the first min(5, n) invoices, in list order |
| AdminController.MonthChart | src/main/java/com/gst/billing/controller/AdminController.java:81-90 | one full month name and one value per monthly row, months strictly ascending, values adding up to total sales |
| AdminController.ChartRows | src/main/java/com/gst/billing/controller/AdminController.java:85-90 | the loop pairs each row's month name with its revenue, in row order |
| AdminController.DeleteUser | src/main/java/com/gst/billing/controller/AdminController.java:149-155 | fails exactly on deleting oneself; otherwise exactly that user is removed and the others keep their data |
| AdminController.HasTextMeans | src/main/java/com/gst/billing/controller/AdminController.java:192-196 | a field counts exactly when it is non-null and holds a visible character, so a value of spaces alone is not counted |
| AdminController.CountWithText | src/main/java/com/gst/billing/controller/AdminController.java:192-196 | the count is zero exactly when no record has text in the field and all of them exactly when every one does |
| AdminController.Distinct | src/main/java/com/gst/billing/controller/AdminController.java:198 | `distinct()` keeps exactly the input's values, each once |
| AdminController.NoRepeatsCard | src/main/java/com/gst/billing/controller/AdminController.java:198 | a list without repeats has as many distinct values as elements |
| AdminController.DistinctCount | src/main/java/com/gst/billing/controller/AdminController.java:198 | the count is the number of distinct creator ids, zero exactly for no records |
| AdminController.UniqueUsers | src/main/java/com/gst/billing/controller/AdminController.java:198 | `uniqueUsers` of customers (and of products, line 270) is the number of distinct creator ids, at most the number of records, zero exactly when there are none |
| AdminController.GstRates | src/main/java/com/gst/billing/controller/AdminController.java:267-277 | the rate list is strictly ascending, holds exactly the set of product rates, and its length is that set's size |
| AdminController.UserDistribution.constructor | src/main/java/com/gst/billing/controller/AdminController.java:230-234 | the counter holds the given name, role and count |
| AdminController.UserDistribution.IncrementCount | src/main/java/com/gst/billing/controller/AdminController.java:236-238 | the count grows by one, name and role unchanged |
| AdminController.CreatorPairs | src/main/java/com/gst/billing/controller/AdminController.java:202-207 | one (creator, 1) pair per customer |
| AdminController.CountPositive | src/main/java/com/gst/billing/controller/AdminController.java:202-208 | a user's count is at least one exactly when they created one of the customers |
| AdminController.CreatorPairsFacts | src/main/java/com/gst/billing/controller/AdminController.java:202-208 | the pairs hold one unit per customer, under exactly the creators' names |
| AdminController.CountCustomer | src/main/java/com/gst/billing/controller/AdminController.java:203-207 | one loop pass: the creator's counter (fresh if new) grows by one, and the map stays an accurate tally |
| AdminController.TallyCustomers | src/main/java/com/gst/billing/controller/AdminController.java:201-208 | the map ends with one fresh counter per creator holding their role and customer count |
| AdminController.Snapshot | src/main/java/com/gst/billing/controller/AdminController.java:210 | one row per counter, each with its name, role and count |
| AdminController.RowsSum | src/main/java/com/gst/billing/controller/AdminController.java:210 | counts read off per name add up as the per-name sums do |
| AdminController.RowsDistinct | src/main/java/com/gst/billing/controller/AdminController.java:210 | rows of distinct names are distinct |
| AdminController.RowsNameCreators | src/main/java/com/gst/billing/controller/AdminController.java:210 | the rows name exactly the creators |
| AdminController.RowsCountAndRole | src/main/java/com/gst/billing/controller/AdminController.java:210 | each row carries its creator's count, at least one, and role |
| AdminController.DistributionFacts | src/main/java/com/gst/billing/controller/AdminController.java:201-210 | the unsorted rows are distinct, name exactly the creators, carry counts and roles, and their counts add up to the number of customers |
| AdminController.SortedDistribution | src/main/java/com/gst/billing/controller/AdminController.java:211 | sorting by count keeps all of that and orders the rows largest first |
| AdminController.UserDistributionOf | src/main/java/com/gst/billing/controller/AdminController.java:201-211 | one row per creator with their role and count (at least one), counts adding up to the number of customers, sorted largest first |

## Left out

- Spring MVC plumbing, model attributes and redirects, the Excel and PDF export, `invoice.js`, the thin CRUD and security services, `InvoiceRepositoryCustomImpl` and JPA persistence are not part of this model. Saving a new invoice runs its `@PrePersist` hook `onCreate` (Invoice.java:63-71), which `CreateInvoice` calls; otherwise `save` returns the entity it is given, and `delete` is a filter over stored rows.
- Model.InvoiceItem: quantity, unit price and rate are never null in the model. `setQuantity`, `setUnitPrice` and `setGstRate` replace null by a default, the constructors start from non-null values, and product price and rate are `NOT NULL` columns. So the zero branches of `calculateAmounts` (InvoiceItem.java:58-61) and `getSubtotal` (InvoiceItem.java:143) cannot be reached. The raw setters `setGstAmount` and `setTotalAmount` store null as given; null arguments to them are not modelled.
- Arith.Mul: the product of price and quantity is written as recursion on the quantity. `MulIsProduct` relates it to `*`.
- InvoiceService.UpdateInvoice: `@Transactional` rollback is not modelled. A product missing mid-loop leaves the in-memory invoice partly rebuilt and returns the error.
- InvoiceService.CreateInvoice: the clock and `Math.random()` are the parameters `millis`, `now` and `random`. `millis >= 100000` stands for any real clock value, which always has at least six digits. `random < 1000` is the range of `(int) (Math.random() * 1000)`.
- InvoiceService.InvoiceNumber: uniqueness of invoice numbers (the `unique` column) is not modelled. `InvoiceNumberCollision` states exactly when two numbers clash.
- InvoiceService.GetInvoiceStatistics: `getUserInvoices` is `ORDER BY invoiceDate DESC`. The sums do not depend on the order, so the list order is not modelled.
- AdminController.RecentInvoices: the order of `getAllInvoices` (`ORDER BY invoiceDate DESC`) is taken as given. "Recent" means the head of that list.
- Amounts with a scale other than 2 are not modelled. Every column has scale 2, and the grouping and the `LinkedHashMap` keys assume a uniform scale.
- Dates are limited to years 0 to 9999, the range where `LocalDate.toString()` is plain `yyyy-MM-dd`.
- The `Double` conversions of `DashboardService.getMonthRevenue` and `getDayRevenue` are not modelled. The values stay exact hundredths.
- InvoiceController.CalculateGstBreakdown: `HashMap` iteration order is not modelled. Conservation is stated over any repeat-free listing of the rates (`BreakdownConserves`).
- AdminController.UserDistributionOf: the values of the `HashMap` are listed in first-seen order. The library sort is a stable insertion sort stated by its ordering, permutation and sum properties. The order among equal counts is therefore not the source's.
- AdminController.GstRates: `Collections.sort` over a `HashSet` is a function giving the unique ascending list. The set's own order is not modelled.
- AdminController.DeleteUser: `userService.deleteUser` is removal from the user map. Failures of `getCurrentUser` and of the deletion, which end in the error flash message, are not modelled.
- InvoiceController.SubmitCreate: the `findByUsername` lookup of the current user and its failure are not modelled. The user is a parameter.
- Several methods hold a run of consecutive statements of one source method: `AddRequestedItem`, `AppendItem`, `ItemsAndTotals`, `ChartRows`, `TallyCustomers`, `FoldItem` and `ComputeIfAbsentAdd`. They exist so that each proof stays small.
