/**
 * InvoiceService: assembling an invoice from a request (create and update),
 * the owner-or-admin rule for changes, the invoice number, the per-user
 * statistics, and the month / day revenue maps built from the repository's
 * grouped rows.  The clock, the random generator and the customer and
 * product lookups are parameters.
 */
module InvoiceService {

  import opened Wrappers
  import opened Money
  import opened Text
  import opened Calendar
  import opened Model
  import opened GroupBy
  import opened InvoiceRepository

  datatype ItemRequest = ItemRequest(productId: Option<int>, quantity: Option<int>)

  datatype InvoiceRequest = InvoiceRequest(customerId: Option<int>, items: Option<seq<ItemRequest>>)

  /** The exceptions the service lets escape, one per cause. */
  datatype ServiceError =
    | CustomerNotFound  // getCustomerById: unknown or null id
    | ProductNotFound   // getProductById: unknown or null id
    | ItemsMissing      // a null item list
    | InvoiceNotFound   // getInvoiceById: unknown id
    | NotAuthorized     // neither the owner nor an admin

  /** customerService.getCustomerById. */
  function FindCustomer(customers: map<int, Customer>, id: Option<int>): (r: Result<Customer, ServiceError>)
    ensures r.Success? <==> id.Some? && id.value in customers
    ensures r.Success? ==> r.value == customers[id.value]
    ensures r.Failure? ==> r.error == CustomerNotFound
  {
    if id.Some? && id.value in customers then Success(customers[id.value]) else Failure(CustomerNotFound)
  }

  predicate Resolvable(req: ItemRequest, catalog: map<int, Product>)
  {
    req.productId.Some? && req.productId.value in catalog
  }

  /** One planned invoice item: its product and the line the setters leave in it. */
  datatype PlannedItem = PlannedItem(product: Product, line: Line)

  /** The item built for a request line whose product is p. */
  function PlanItem(req: ItemRequest, p: Product): (it: PlannedItem)
    ensures it.product == p
    ensures it.line.quantity == OrElse(req.quantity, 1)
    ensures it.line.unitPrice == p.price && it.line.gstRate == p.gstRate
    ensures LineConsistent(it.line)
  {
    PlannedItem(p, Calculated(p.price, OrElse(req.quantity, 1), p.gstRate))
  }

  /**
   * The items the request loop builds, in request order; the first request
   * line whose product cannot be found aborts the whole request.
   */
  function BuildItems(reqs: seq<ItemRequest>, catalog: map<int, Product>): (r: Result<seq<PlannedItem>, ServiceError>)
    ensures r.Success? <==> forall i :: 0 <= i < |reqs| ==> Resolvable(reqs[i], catalog)
    ensures r.Failure? ==> r.error == ProductNotFound
    ensures r.Success? ==> |r.value| == |reqs|
    ensures r.Success? ==> forall i :: 0 <= i < |reqs| ==>
              r.value[i] == PlanItem(reqs[i], catalog[reqs[i].productId.value])
  {
    if reqs == [] then Success([])
    else
      var init := reqs[..|reqs| - 1];
      var last := reqs[|reqs| - 1];
      assert forall i :: 0 <= i < |init| ==> init[i] == reqs[i];
      var prefix := BuildItems(init, catalog);
      if prefix.Failure? then Failure(ProductNotFound)
      else if !Resolvable(last, catalog) then Failure(ProductNotFound)
      else Success(prefix.value + [PlanItem(last, catalog[last.productId.value])])
  }

  /** The request loop's step: one more request line either extends the plan or fails it. */
  lemma BuildItemsStep(reqs: seq<ItemRequest>, i: nat, catalog: map<int, Product>)
    requires i < |reqs| && BuildItems(reqs[..i], catalog).Success?
    ensures BuildItems(reqs[..i + 1], catalog) ==
              if Resolvable(reqs[i], catalog)
              then Success(BuildItems(reqs[..i], catalog).value + [PlanItem(reqs[i], catalog[reqs[i].productId.value])])
              else Failure(ProductNotFound)
  {
    assert reqs[..i + 1][..i] == reqs[..i];
  }

  function LinesOf(items: seq<PlannedItem>): (ls: seq<Line>)
    ensures |ls| == |items| && forall i :: 0 <= i < |items| ==> ls[i] == items[i].line
  {
    if items == [] then [] else LinesOf(items[..|items| - 1]) + [items[|items| - 1].line]
  }

  /**
   * Every built line is consistent, so the invoice total subtotal + GST is
   * also the sum of the item totals; an empty request builds no items and
   * zero totals.
   */
  lemma {:induction false} BuiltItemsTotals(reqs: seq<ItemRequest>, catalog: map<int, Product>)
    requires BuildItems(reqs, catalog).Success?
    ensures var ls := LinesOf(BuildItems(reqs, catalog).value);
            TotalOf(ls) == SubtotalOf(ls) + GstOf(ls)
    ensures reqs == [] ==> BuildItems(reqs, catalog) == Success([])
  {
    var ls := LinesOf(BuildItems(reqs, catalog).value);
    ConsistentLinesTotal(ls);
  }

  lemma LinesOfSnoc(items: seq<PlannedItem>, x: PlannedItem)
    ensures LinesOf(items + [x]) == LinesOf(items) + [x.line]
  {
    assert (items + [x])[..|items|] == items;
  }

  /**
   * The invoice holds the planned items in order: each one points back at
   * the invoice, carries its planned product, and has the planned line.
   */
  predicate ItemsBuilt(inv: Invoice, planned: seq<PlannedItem>)
    reads inv`items, inv.items
  {
    && |inv.items| == |planned|
    && (forall j :: 0 <= j < |planned| ==>
          inv.items[j].invoice == inv && inv.items[j].product == Some(planned[j].product))
    && inv.Lines() == LinesOf(planned)
  }

  /** One pass of the request loop body: a new item filled in through the setters. */
  method NewRequestedItem(inv: Invoice, req: ItemRequest, p: Product) returns (item: InvoiceItem)
    ensures fresh(item)
    ensures item.invoice == inv && item.product == Some(p)
    ensures item.View() == PlanItem(req, p).line
  {
    item := new InvoiceItem();
    item.SetInvoice(inv);
    item.SetProduct(Some(p));
    item.SetQuantity(req.quantity);
    item.SetUnitPrice(Some(p.price));
    item.SetGstRate(Some(p.gstRate));
    item.CalculateAmounts();
    assert item.quantity == OrElse(req.quantity, 1) && item.unitPrice == p.price && item.gstRate == p.gstRate;
  }

  /** invoice.getItems().add(item): the next planned item joins the invoice. */
  method AppendItem(inv: Invoice, item: InvoiceItem, ghost planned: seq<PlannedItem>, ghost next: PlannedItem)
    requires ItemsBuilt(inv, planned)
    requires item.invoice == inv && item.product == Some(next.product) && item.View() == next.line
    modifies inv`items
    ensures inv.items == old(inv.items) + [item]
    ensures ItemsBuilt(inv, planned + [next])
    ensures SubtotalOf(inv.Lines()) == SubtotalOf(old(inv.Lines())) + LineSubtotal(next.line)
    ensures GstOf(inv.Lines()) == GstOf(old(inv.Lines())) + next.line.gstAmount
  {
    ghost var previous := inv.items;
    inv.items := inv.items + [item];
    assert inv.items[..|previous|] == previous;
    assert inv.Lines() == Views(previous) + [next.line];
    LinesOfSnoc(planned, next);
    assert (Views(previous) + [next.line])[..|previous|] == Views(previous);
  }

  /**
   * The body of the request loop once the product is found: the new item
   * joins the invoice, and its subtotal and GST are what the running sums
   * grow by.
   */
  method AddRequestedItem(inv: Invoice, req: ItemRequest, p: Product, ghost planned: seq<PlannedItem>)
    returns (item: InvoiceItem, itemSubtotal: Cents, itemGst: Cents)
    requires ItemsBuilt(inv, planned)
    modifies inv`items
    ensures fresh(item) && inv.items == old(inv.items) + [item]
    ensures ItemsBuilt(inv, planned + [PlanItem(req, p)])
    ensures SubtotalOf(inv.Lines()) == SubtotalOf(old(inv.Lines())) + itemSubtotal
    ensures GstOf(inv.Lines()) == GstOf(old(inv.Lines())) + itemGst
  {
    item := NewRequestedItem(inv, req, p);
    AppendItem(inv, item, planned, PlanItem(req, p));
    itemSubtotal := item.Subtotal();
    itemGst := item.gstAmount;
  }

  /**
   * The request loop of createInvoice / updateInvoice: for each request line
   * it looks the product up, builds an item through the setters, appends it
   * to the invoice and accumulates the subtotal and the GST, which it
   * returns.  A missing product stops the loop with an error.
   */
  method AddRequestedItems(inv: Invoice, reqs: seq<ItemRequest>, catalog: map<int, Product>)
    returns (result: Result<(Cents, Cents), ServiceError>)
    requires inv.items == []
    modifies inv`items
    ensures result.Success? <==> BuildItems(reqs, catalog).Success?
    ensures result.Failure? ==> result.error == ProductNotFound
    ensures forall x :: x in inv.items ==> fresh(x)
    ensures result.Success? ==> ItemsBuilt(inv, BuildItems(reqs, catalog).value)
    ensures result.Success? ==> result.value == (SubtotalOf(inv.Lines()), GstOf(inv.Lines()))
  {
    var subtotal, totalGst := 0, 0;
    ghost var planned: seq<PlannedItem> := [];
    var i := 0;
    while i < |reqs| && Resolvable(reqs[i], catalog)
      invariant 0 <= i <= |reqs|
      invariant BuildItems(reqs[..i], catalog) == Success(planned)
      invariant forall x :: x in inv.items ==> fresh(x)
      invariant ItemsBuilt(inv, planned)
      invariant subtotal == SubtotalOf(inv.Lines()) && totalGst == GstOf(inv.Lines())
    {
      BuildItemsStep(reqs, i, catalog);
      var p := catalog[reqs[i].productId.value];
      ghost var before := inv.items;
      var item, itemSubtotal, itemGst := AddRequestedItem(inv, reqs[i], p, planned);
      assert fresh(item);
      forall x | x in inv.items ensures fresh(x) {
        if x != item {
          assert x in before;
        }
      }
      subtotal := subtotal + itemSubtotal;
      totalGst := totalGst + itemGst;
      planned := planned + [PlanItem(reqs[i], p)];
      i := i + 1;
    }
    if i < |reqs| {
      return Failure(ProductNotFound);
    }
    assert reqs[..i] == reqs;
    return Success((subtotal, totalGst));
  }

  /** The header createInvoice fills in before the items: number, date, customer and owner. */
  method NewInvoiceHeader(number: string, today: Date, customer: Customer, user: User) returns (inv: Invoice)
    ensures fresh(inv)
    ensures inv.invoiceNumber == Some(number) && inv.invoiceDate == Some(today)
    ensures inv.customer == Some(customer) && inv.user == Some(user)
    ensures inv.createdAt == None && inv.items == []
  {
    inv := new Invoice();
    inv.invoiceNumber := Some(number);
    inv.invoiceDate := Some(today);
    inv.customer := Some(customer);
    inv.user := Some(user);
  }

  /** setSubtotal, setTotalGst and setTotalAmount(subtotal + GST) after the item loop. */
  method SetTotals(inv: Invoice, subtotal: Cents, totalGst: Cents)
    modifies inv`subtotal, inv`totalGst, inv`totalAmount
    ensures inv.subtotal == subtotal && inv.totalGst == totalGst
    ensures inv.totalAmount == subtotal + totalGst
  {
    inv.subtotal := subtotal;
    inv.totalGst := totalGst;
    inv.totalAmount := subtotal + totalGst;
  }

  /**
   * createInvoice: a new invoice for the request's customer, owned by the
   * user, numbered from the clock and the random value, dated today, with
   * one item per request line in request order and the totals of those
   * items; saving it runs the @PrePersist hook, which stamps the creation
   * time now.  A missing customer, a null item list or a missing product is
   * an error and yields no invoice.
   */
  method CreateInvoice(request: InvoiceRequest, user: User, customers: map<int, Customer>,
                       catalog: map<int, Product>, millis: nat, random: nat, today: Date, now: DateTime)
    returns (result: Result<Invoice, ServiceError>)
    requires millis >= 100000 && random < 1000
    ensures result.Failure? ==>
              result.error == (if FindCustomer(customers, request.customerId).Failure? then CustomerNotFound
                               else if request.items.None? then ItemsMissing
                               else ProductNotFound)
    ensures result.Success? <==>
              && FindCustomer(customers, request.customerId).Success?
              && request.items.Some?
              && BuildItems(request.items.value, catalog).Success?
    ensures result.Success? ==>
              var inv := result.value;
              var planned := BuildItems(request.items.value, catalog).value;
              && fresh(inv)
              && inv.invoiceNumber == Some(InvoiceNumber(millis, random))
              && inv.invoiceDate == Some(today)
              && inv.customer == Some(customers[request.customerId.value])
              && inv.user == Some(user)
              && inv.createdAt == Some(now)
              && ItemsBuilt(inv, planned)
              && (forall x :: x in inv.items ==> fresh(x))
              && inv.subtotal == SubtotalOf(inv.Lines())
              && inv.totalGst == GstOf(inv.Lines())
              && inv.totalAmount == inv.subtotal + inv.totalGst
  {
    var customer := FindCustomer(customers, request.customerId);
    if customer.Failure? {
      return Failure(CustomerNotFound);
    }
    var inv := NewInvoiceHeader(InvoiceNumber(millis, random), today, customer.value, user);
    if request.items.None? {
      return Failure(ItemsMissing);
    }
    var built := ItemsAndTotals(inv, request.items.value, catalog);
    if !built {
      return Failure(ProductNotFound);
    }
    inv.OnCreate(now, today);
    return Success(inv);
  }

  /**
   * The request loop followed by setSubtotal, setTotalGst and
   * setTotalAmount, shared by createInvoice and updateInvoice: the invoice,
   * starting without items, gets the built items and their totals, or
   * stops at the first missing product.
   */
  method ItemsAndTotals(inv: Invoice, reqs: seq<ItemRequest>, catalog: map<int, Product>) returns (built: bool)
    requires inv.items == []
    modifies inv`items, inv`subtotal, inv`totalGst, inv`totalAmount
    ensures built <==> BuildItems(reqs, catalog).Success?
    ensures forall x :: x in inv.items ==> fresh(x)
    ensures built ==>
              && ItemsBuilt(inv, BuildItems(reqs, catalog).value)
              && inv.subtotal == SubtotalOf(inv.Lines())
              && inv.totalGst == GstOf(inv.Lines())
              && inv.totalAmount == inv.subtotal + inv.totalGst
  {
    var sums := AddRequestedItems(inv, reqs, catalog);
    if sums.Failure? {
      return false;
    }
    SetTotals(inv, sums.value.0, sums.value.1);
    return true;
  }

  /**
   * The item branch of updateInvoice: the old items are cleared, the
   * request's items are built and the totals recomputed.  It reports
   * whether every product was found.
   */
  method ReplaceItems(inv: Invoice, reqs: seq<ItemRequest>, catalog: map<int, Product>) returns (replaced: bool)
    modifies inv`items, inv`subtotal, inv`totalGst, inv`totalAmount
    ensures replaced <==> BuildItems(reqs, catalog).Success?
    ensures forall x :: x in inv.items ==> fresh(x)
    ensures replaced ==>
              && ItemsBuilt(inv, BuildItems(reqs, catalog).value)
              && inv.subtotal == SubtotalOf(inv.Lines())
              && inv.totalGst == GstOf(inv.Lines())
              && inv.totalAmount == inv.subtotal + inv.totalGst
  {
    inv.items := [];
    replaced := ItemsAndTotals(inv, reqs, catalog);
  }

  /**
   * updateInvoice on the invoice found for the id (null when there is none):
   * only the owner or an admin may update; a given customer id replaces the
   * customer; a non-empty item list replaces the items and recomputes the
   * totals, while a null or empty one leaves items and totals alone.  The
   * number and the date are never touched.
   */
  method UpdateInvoice(found: Invoice?, request: InvoiceRequest, user: User,
                       customers: map<int, Customer>, catalog: map<int, Product>)
    returns (result: Result<Invoice, ServiceError>)
    requires found != null ==> found.user.Some?
    modifies found
    ensures found == null ==> result == Failure(InvoiceNotFound)
    ensures found != null && !OwnerOrAdmin(old(found.user.value.id), user) ==>
              result == Failure(NotAuthorized) && unchanged(found)
    ensures found != null && OwnerOrAdmin(old(found.user.value.id), user)
            && request.customerId.Some? && request.customerId.value !in customers ==>
              result == Failure(CustomerNotFound) && unchanged(found)
    ensures found != null ==>
              && found.invoiceNumber == old(found.invoiceNumber)
              && found.invoiceDate == old(found.invoiceDate)
              && found.user == old(found.user)
              && found.createdAt == old(found.createdAt)
    ensures result.Success? ==>
              && found != null && result.value == found
              && found.customer == (if request.customerId.Some? then Some(customers[request.customerId.value])
                                    else old(found.customer))
    ensures result.Success? && (request.items.None? || request.items.value == []) ==>
              && found.items == old(found.items)
              && found.subtotal == old(found.subtotal)
              && found.totalGst == old(found.totalGst)
              && found.totalAmount == old(found.totalAmount)
    ensures found != null && OwnerOrAdmin(old(found.user.value.id), user)
            && (request.customerId.None? || request.customerId.value in customers) ==>
              (result.Success? <==> request.items.None? || request.items.value == []
                                    || BuildItems(request.items.value, catalog).Success?)
    ensures result.Success? && request.items.Some? && request.items.value != [] ==>
              var planned := BuildItems(request.items.value, catalog).value;
              && ItemsBuilt(found, planned)
              && (forall x :: x in found.items ==> fresh(x))
              && found.subtotal == SubtotalOf(found.Lines())
              && found.totalGst == GstOf(found.Lines())
              && found.totalAmount == found.subtotal + found.totalGst
    ensures result.Failure? && found != null && OwnerOrAdmin(old(found.user.value.id), user)
            && (request.customerId.None? || request.customerId.value in customers) ==>
              result.error == ProductNotFound
  {
    if found == null {
      return Failure(InvoiceNotFound);
    }
    if !OwnerOrAdmin(found.user.value.id, user) {
      return Failure(NotAuthorized);
    }
    if request.customerId.Some? {
      var customer := FindCustomer(customers, request.customerId);
      if customer.Failure? {
        return Failure(CustomerNotFound);
      }
      found.customer := Some(customer.value);
    }
    if request.items.Some? && request.items.value != [] {
      var replaced := ReplaceItems(found, request.items.value, catalog);
      if !replaced {
        return Failure(ProductNotFound);
      }
    }
    return Success(found);
  }

  /** The last lookup of findById: the stored invoice with the id, if any. */
  function FindById(rows: seq<InvoiceRow>, id: int): (r: Option<InvoiceRow>)
    ensures r.Some? ==> r.value in rows && r.value.id == id
    ensures r.None? <==> forall x :: x in rows ==> x.id != id
  {
    if rows == [] then None
    else if rows[0].id == id then Some(rows[0])
    else FindById(rows[1..], id)
  }

  /** The stored invoices other than those with the id. */
  function WithoutId(rows: seq<InvoiceRow>, id: int): (r: seq<InvoiceRow>)
    ensures forall x :: x in r <==> x in rows && x.id != id
  {
    if rows == [] then []
    else if rows[0].id == id then WithoutId(rows[1..], id)
    else [rows[0]] + WithoutId(rows[1..], id)
  }

  /**
   * deleteInvoice over the stored invoices: an unknown id is an error, a
   * caller who neither owns the invoice nor is an admin is refused and
   * nothing is deleted, otherwise the invoice is gone and every other one
   * stays.
   */
  function DeleteInvoice(rows: seq<InvoiceRow>, id: int, caller: User): (r: Result<seq<InvoiceRow>, ServiceError>)
    ensures r.Success? <==> FindById(rows, id).Some? && OwnerOrAdmin(FindById(rows, id).value.ownerId, caller)
    ensures r.Failure? ==> r.error == (if FindById(rows, id).None? then InvoiceNotFound else NotAuthorized)
    ensures r.Success? ==> forall x :: x in r.value <==> x in rows && x.id != id
    ensures r.Success? ==> |r.value| < |rows|
  {
    match FindById(rows, id)
    case None => Failure(InvoiceNotFound)
    case Some(invoice) =>
      if !OwnerOrAdmin(invoice.ownerId, caller) then Failure(NotAuthorized)
      else
        WithoutIdShorter(rows, id);
        Success(WithoutId(rows, id))
  }

  lemma {:induction false} WithoutIdShorter(rows: seq<InvoiceRow>, id: int)
    requires exists x :: x in rows && x.id == id
    ensures |WithoutId(rows, id)| < |rows|
  {
    if rows[0].id != id {
      assert exists x :: x in rows[1..] && x.id == id by {
        var x :| x in rows && x.id == id;
        assert x != rows[0];
        var k :| 0 <= k < |rows| && rows[k] == x;
        assert rows[1..][k - 1] == x;
      }
      WithoutIdShorter(rows[1..], id);
    } else {
      WithoutIdNoLonger(rows[1..], id);
    }
  }

  lemma {:induction false} WithoutIdNoLonger(rows: seq<InvoiceRow>, id: int)
    ensures |WithoutId(rows, id)| <= |rows|
  {
    if rows != [] {
      WithoutIdNoLonger(rows[1..], id);
    }
  }

  /**
   * generateInvoiceNumber: "INV-", the last six digits of the millisecond
   * clock, "-", and the random number below 1000.  The clock must have at
   * least six digits for the substring to exist.
   */
  function InvoiceNumber(millis: nat, random: nat): (s: string)
    requires millis >= 100000 && random < 1000
    ensures 12 <= |s| <= 14
    ensures s[..4] == "INV-" && s[10] == '-'
  {
    var timestamp := DecimalString(millis);
    assert Pow10(5) == 100000 && Pow10(3) == 1000;
    DecimalStringLength(millis, 5);
    DecimalStringLength(random, 3);
    "INV-" + timestamp[|timestamp| - 6..] + "-" + DecimalString(random)
  }

  lemma {:induction false} InvoiceNumberParts(millis: nat, random: nat)
    requires millis >= 100000 && random < 1000
    ensures var s := InvoiceNumber(millis, random);
            && s == "INV-" + PadDigits(millis % Pow10(6), 6) + "-" + DecimalString(random)
            && s[4..10] == PadDigits(millis % Pow10(6), 6) && s[11..] == DecimalString(random)
  {
    var t := DecimalString(millis);
    assert Pow10(5) == 100000;
    DecimalStringLength(millis, 5);
    DecimalSuffix(millis, 6);
    var s := InvoiceNumber(millis, random);
    assert s == "INV-" + t[|t| - 6..] + "-" + DecimalString(random);
  }

  /**
   * Two invoice numbers collide exactly when the clocks agree in their last
   * six decimal digits and the random numbers are equal: the number alone
   * cannot be unique.
   */
  lemma {:induction false} InvoiceNumberCollision(m1: nat, r1: nat, m2: nat, r2: nat)
    requires m1 >= 100000 && r1 < 1000 && m2 >= 100000 && r2 < 1000
    ensures InvoiceNumber(m1, r1) == InvoiceNumber(m2, r2) <==> m1 % 1000000 == m2 % 1000000 && r1 == r2
  {
    var p := Pow10(6);
    assert p == 1000000;
    InvoiceNumberParts(m1, r1);
    InvoiceNumberParts(m2, r2);
    var s1, s2 := InvoiceNumber(m1, r1), InvoiceNumber(m2, r2);
    if s1 == s2 {
      assert s1[4..10] == s2[4..10] && s1[11..] == s2[11..];
      PadDigitsInjective(m1 % p, m2 % p, 6);
      DecimalStringInjective(r1, r2);
    }
  }

  /** getInvoiceStatistics: number of the user's invoices, and the sums of their totals and GST. */
  datatype InvoiceStatistics = InvoiceStatistics(totalInvoices: nat, totalRevenue: Cents, totalGst: Cents)

  /** stream().map(getTotalAmount).reduce(ZERO, add). */
  function ReduceAmount(acc: Cents, rows: seq<InvoiceRow>): Cents
    decreases rows
  {
    if rows == [] then acc else ReduceAmount(acc + rows[0].totalAmount, rows[1..])
  }

  /** stream().map(getTotalGst).reduce(ZERO, add). */
  function ReduceGst(acc: Cents, rows: seq<InvoiceRow>): Cents
    decreases rows
  {
    if rows == [] then acc else ReduceGst(acc + rows[0].totalGst, rows[1..])
  }

  lemma {:induction false} SumsFromFront(x: InvoiceRow, rows: seq<InvoiceRow>)
    ensures SumAmount([x] + rows) == x.totalAmount + SumAmount(rows)
    ensures SumGst([x] + rows) == x.totalGst + SumGst(rows)
    decreases |rows|
  {
    if rows != [] {
      var init := rows[..|rows| - 1];
      assert ([x] + rows)[..|rows|] == [x] + init;
      SumsFromFront(x, init);
    } else {
      assert ([x] + rows)[..0] == [];
    }
  }

  /** The stream reductions are the SUM of the repository. */
  lemma {:induction false} ReduceIsSum(acc: Cents, rows: seq<InvoiceRow>)
    ensures ReduceAmount(acc, rows) == acc + SumAmount(rows)
    ensures ReduceGst(acc, rows) == acc + SumGst(rows)
    decreases rows
  {
    if rows != [] {
      ReduceIsSum(acc + rows[0].totalAmount, rows[1..]);
      ReduceIsSum(acc + rows[0].totalGst, rows[1..]);
      SumsFromFront(rows[0], rows[1..]);
      assert rows == [rows[0]] + rows[1..];
    }
  }

  /**
   * The statistics agree with the repository's countByUser and the
   * COALESCE(SUM) totals, and are all zero for a user without invoices.
   */
  function GetInvoiceStatistics(rows: seq<InvoiceRow>, user: User): (s: InvoiceStatistics)
    ensures s.totalInvoices == CountByUser(rows, user)
    ensures s.totalRevenue == TotalSalesByUser(rows, user)
    ensures s.totalGst == TotalGstByUser(rows, user)
  {
    var mine := ForUser(rows, user);
    ReduceIsSum(0, mine);
    InvoiceStatistics(|mine|, ReduceAmount(0, mine), ReduceGst(0, mine))
  }

  /** The keys of an insertion-ordered map are distinct. */
  predicate DistinctKeys(m: seq<(string, Cents)>)
  {
    forall i, j :: 0 <= i < j < |m| ==> m[i].0 != m[j].0
  }

  /**
   * LinkedHashMap.put over the entries in insertion order: a new key is
   * appended at the end, an existing key keeps its place and takes the new
   * value.
   */
  function Put(m: seq<(string, Cents)>, k: string, v: Cents): (r: seq<(string, Cents)>)
    requires DistinctKeys(m)
    ensures DistinctKeys(r)
    ensures forall i :: 0 <= i < |r| ==> r[i] == (k, v) || (i < |m| && r[i] == m[i])
  {
    if m == [] then [(k, v)]
    else if m[0].0 == k then [(k, v)] + m[1..]
    else [m[0]] + Put(m[1..], k, v)
  }

  /** Putting a new key appends its entry after every existing one. */
  lemma {:induction false} PutNewKey(m: seq<(string, Cents)>, k: string, v: Cents)
    requires DistinctKeys(m)
    requires forall i :: 0 <= i < |m| ==> m[i].0 != k
    ensures Put(m, k, v) == m + [(k, v)]
  {
    if m != [] {
      PutNewKey(m[1..], k, v);
      assert m == [m[0]] + m[1..];
    }
  }

  /** Putting an existing key keeps its entry in place and replaces only the value. */
  lemma {:induction false} PutExistingKey(m: seq<(string, Cents)>, k: string, v: Cents, j: int)
    requires DistinctKeys(m)
    requires 0 <= j < |m| && m[j].0 == k
    ensures Put(m, k, v) == m[j := (k, v)]
  {
    if j == 0 {
      assert Put(m, k, v) == [(k, v)] + m[1..];
    } else {
      assert m[0].0 != k;
      PutExistingKey(m[1..], k, v, j - 1);
      assert Put(m, k, v) == [m[0]] + m[1..][j - 1 := (k, v)];
    }
  }

  /** getMonthName: JAN, FEB, ... for the month number. */
  function MonthLabel(month: MonthNumber): (s: string)
    ensures |s| == 3 && MonthOfShortName(s) == month
  {
    MonthNamesRoundTrip(month);
    ShortMonthName(month)
  }

  /**
   * The loop shared by getMonthlyRevenue and getDailyRevenue: each grouped
   * row put into an insertion-ordered map under its name.  With distinct
   * labels every row becomes its own entry, in row order.
   */
  method PutRows<K>(data: seq<Bucket<K>>, nameOf: K -> string) returns (result: seq<(string, Cents)>)
    requires forall i, j :: 0 <= i < j < |data| ==> nameOf(data[i].key) != nameOf(data[j].key)
    ensures |result| == |data| && DistinctKeys(result)
    ensures forall i :: 0 <= i < |data| ==> result[i] == (nameOf(data[i].key), data[i].total)
  {
    result := [];
    var i := 0;
    while i < |data|
      invariant 0 <= i <= |data| && |result| == i
      invariant DistinctKeys(result)
      invariant forall j :: 0 <= j < i ==> result[j] == (nameOf(data[j].key), data[j].total)
    {
      PutNewKey(result, nameOf(data[i].key), data[i].total);
      result := Put(result, nameOf(data[i].key), data[i].total);
      i := i + 1;
    }
  }

  /**
   * getMonthlyRevenue: the all-users rows for an admin, the user's rows
   * otherwise, put into an insertion-ordered map under JAN, FEB, ...  The
   * months are distinct, so every row becomes its own entry, in month order.
   */
  method GetMonthlyRevenue(rows: seq<InvoiceRow>, user: User, isAdmin: bool)
    returns (result: seq<(string, Cents)>)
    ensures var data := if isAdmin then MonthlyRevenueAll(rows) else MonthlyRevenue(rows, user);
            && |result| == |data|
            && forall i :: 0 <= i < |data| ==> result[i] == (MonthLabel(data[i].key), data[i].total)
    ensures forall i, j :: 0 <= i < j < |result| ==> MonthOfShortName(result[i].0) < MonthOfShortName(result[j].0)
  {
    var queried := if isAdmin then rows else ForUser(rows, user);
    var data := MonthlyRevenueAll(queried);
    MonthlyRevenueSpec(queried);
    forall i, j | 0 <= i < j < |data| ensures MonthLabel(data[i].key) != MonthLabel(data[j].key) {
      assert MonthOfShortName(MonthLabel(data[i].key)) < MonthOfShortName(MonthLabel(data[j].key));
    }
    result := PutRows(data, MonthLabel);
  }

  /** Dates in ascending order have distinct ISO labels. */
  lemma AscendingDatesDistinctLabels(data: seq<Bucket<Date>>)
    requires forall i, j :: 0 <= i < j < |data| ==> Before(data[i].key, data[j].key)
    ensures forall i, j :: 0 <= i < j < |data| ==> IsoDate(data[i].key) != IsoDate(data[j].key)
  {
    forall i, j | 0 <= i < j < |data| ensures IsoDate(data[i].key) != IsoDate(data[j].key) {
      IsoDateInjective(data[i].key, data[j].key);
      DateOrdinalOrder(data[i].key, data[j].key);
    }
  }

  /**
   * getDailyRevenue: the rows put into an insertion-ordered map under the
   * ISO date; the dates are distinct, so every row is its own entry, in
   * date order.
   */
  method GetDailyRevenue(rows: seq<InvoiceRow>, user: User, isAdmin: bool)
    returns (result: seq<(string, Cents)>)
    ensures var data := if isAdmin then DailyRevenueAll(rows) else DailyRevenue(rows, user);
            && |result| == |data|
            && forall i :: 0 <= i < |data| ==> result[i] == (IsoDate(data[i].key), data[i].total)
    ensures DistinctKeys(result)
  {
    var queried := if isAdmin then rows else ForUser(rows, user);
    var data := DailyRevenueAll(queried);
    DailyRevenueSpec(queried);
    AscendingDatesDistinctLabels(data);
    result := PutRows(data, IsoDate);
  }
}
