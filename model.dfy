/**
 * The persistent entities of the billing application (package model): users,
 * products and customers as values, and the two entities whose fields the
 * application updates in place, InvoiceItem and Invoice, as classes.
 */
module Model {

  import opened Wrappers
  import opened Arith
  import opened Money
  import opened Calendar

  datatype Role = UserRole | AdminRole

  /** Role.name(). */
  function RoleName(r: Role): (s: string)
    ensures s == "ADMIN" <==> r == AdminRole
  {
    match r
    case UserRole => "USER"
    case AdminRole => "ADMIN"
  }

  datatype User = User(id: int, username: string, role: Role)

  datatype Product = Product(id: int, name: string, price: Cents, gstRate: BasisRate,
                             hsnCode: Option<string>, createdBy: User)

  datatype Customer = Customer(id: int, name: string, email: Option<string>, gstin: Option<string>,
                               createdBy: User)

  /**
   * The ownership rule repeated by every service: the caller may change a
   * record when it owns the record or has the ADMIN role.
   */
  predicate OwnerOrAdmin(ownerId: int, caller: User)
  {
    ownerId == caller.id || caller.role == AdminRole
  }

  /** The amounts of one invoice line, as stored in an InvoiceItem. */
  datatype Line = Line(quantity: int, unitPrice: Cents, gstRate: BasisRate, gstAmount: Cents, totalAmount: Cents)

  /** The line's unit price times its quantity, unrounded (getSubtotal). */
  function LineSubtotal(l: Line): Cents
  {
    Taxable(l.unitPrice, l.quantity)
  }

  /** The derived amounts are those calculateAmounts computes from price, quantity and rate. */
  predicate LineConsistent(l: Line)
  {
    l.gstAmount == LineGst(LineSubtotal(l), l.gstRate)
    && l.totalAmount == LineSubtotal(l) + l.gstAmount
  }

  /** The line calculateAmounts leaves behind for the given price, quantity and rate. */
  function Calculated(unitPrice: Cents, quantity: int, gstRate: BasisRate): (l: Line)
    ensures l.unitPrice == unitPrice && l.quantity == quantity && l.gstRate == gstRate
    ensures LineConsistent(l)
  {
    var taxable := Taxable(unitPrice, quantity);
    var gst := LineGst(taxable, gstRate);
    Line(quantity, unitPrice, gstRate, gst, taxable + gst)
  }

  /**
   * The amounts depend on nothing but the final price, quantity and rate: a
   * consistent line is the calculated line for its three inputs, whatever
   * sequence of setters produced it.
   */
  lemma {:induction false} ConsistentIsCalculated(l: Line)
    ensures LineConsistent(l) <==> l == Calculated(l.unitPrice, l.quantity, l.gstRate)
  {
  }

  /**
   * For a non-negative price, quantity and rate, a consistent line has a
   * non-negative GST within half a hundredth of the exact value, and a total
   * no smaller than its subtotal.
   */
  lemma {:induction false} LineAmountBounds(l: Line)
    requires LineConsistent(l)
    requires l.unitPrice >= 0 && l.quantity >= 0 && l.gstRate >= 0
    ensures l.gstAmount >= 0 && l.totalAmount >= LineSubtotal(l)
    ensures -10000 <= 2 * (10000 * l.gstAmount - LineSubtotal(l) * l.gstRate) <= 10000
  {
    assert LineSubtotal(l) >= 0 by {
      MulIsProduct(l.unitPrice, l.quantity);
      assert l.unitPrice * l.quantity >= 0;
    }
    LineGstError(LineSubtotal(l), l.gstRate);
  }

  /** Sum of the line subtotals. */
  function SubtotalOf(lines: seq<Line>): Cents
  {
    if lines == [] then 0 else SubtotalOf(lines[..|lines| - 1]) + LineSubtotal(lines[|lines| - 1])
  }

  /** Sum of the line GST amounts. */
  function GstOf(lines: seq<Line>): Cents
  {
    if lines == [] then 0 else GstOf(lines[..|lines| - 1]) + lines[|lines| - 1].gstAmount
  }

  /** Sum of the line totals. */
  function TotalOf(lines: seq<Line>): Cents
  {
    if lines == [] then 0 else TotalOf(lines[..|lines| - 1]) + lines[|lines| - 1].totalAmount
  }

  /** When every line is consistent, the line totals add up to subtotal plus GST. */
  lemma {:induction false} ConsistentLinesTotal(lines: seq<Line>)
    requires forall i :: 0 <= i < |lines| ==> LineConsistent(lines[i])
    ensures TotalOf(lines) == SubtotalOf(lines) + GstOf(lines)
  {
    if lines != [] {
      ConsistentLinesTotal(lines[..|lines| - 1]);
    }
  }

  /** An item of an invoice: one product, its quantity, and the amounts derived from them. */
  class InvoiceItem {
    var invoice: Invoice?
    var product: Option<Product>
    var quantity: int
    var unitPrice: Cents
    var gstRate: BasisRate
    var gstAmount: Cents
    var totalAmount: Cents

    function View(): Line
      reads this
    {
      Line(quantity, unitPrice, gstRate, gstAmount, totalAmount)
    }

    /** The stored amounts are the calculated ones. */
    ghost predicate Consistent()
      reads this
    {
      LineConsistent(View())
    }

    /** A fresh item: quantity 1, every amount zero, no product, no invoice. */
    constructor ()
      ensures invoice == null && product == None
      ensures View() == Line(1, 0, 0, 0, 0) && Consistent()
    {
      invoice := null;
      product := None;
      quantity := 1;
      unitPrice := 0;
      gstRate := 0;
      gstAmount := 0;
      totalAmount := 0;
    }

    /** An item for a product: a null quantity becomes 1, price and rate come from the product. */
    constructor WithProduct(p: Option<Product>, q: Option<int>)
      ensures invoice == null && product == p
      ensures p.Some? ==> View() == Calculated(p.value.price, OrElse(q, 1), p.value.gstRate)
      ensures p.None? ==> View() == Calculated(0, OrElse(q, 1), 0)
    {
      invoice := null;
      product := p;
      quantity := OrElse(q, 1);
      if p.Some? {
        unitPrice := p.value.price;
        gstRate := p.value.gstRate;
      } else {
        unitPrice := 0;
        gstRate := 0;
      }
      gstAmount := 0;
      totalAmount := 0;
      new;
      ghost var price, qty, rate := unitPrice, quantity, gstRate;
      CalculateAmounts();
      assert unitPrice == price && quantity == qty && gstRate == rate;
      assert View() == Calculated(price, qty, rate);
    }

    /** Recomputes GST and total from price, quantity and rate. */
    method CalculateAmounts()
      modifies this`gstAmount, this`totalAmount
      ensures unitPrice == old(unitPrice) && quantity == old(quantity) && gstRate == old(gstRate)
      ensures invoice == old(invoice) && product == old(product)
      ensures View() == Calculated(unitPrice, quantity, gstRate)
    {
      var itemTotal := unitPrice * quantity;
      gstAmount := RoundHalfUp(itemTotal * gstRate, 10000);
      totalAmount := itemTotal + gstAmount;
      MulIsProduct(unitPrice, quantity);
      MulIsProduct(itemTotal, gstRate);
    }

    /** The price times the quantity, before GST. */
    function Subtotal(): (s: Cents)
      reads this
      ensures s == LineSubtotal(View())
      ensures Consistent() ==> totalAmount == s + gstAmount
    {
      MulIsProduct(unitPrice, quantity);
      unitPrice * quantity
    }

    method SetInvoice(inv: Invoice?)
      modifies this`invoice
      ensures invoice == inv
    {
      invoice := inv;
    }

    /**
     * A product brings its price and rate and recalculates; a null product
     * is stored and nothing else changes.
     */
    method SetProduct(p: Option<Product>)
      modifies this`product, this`unitPrice, this`gstRate, this`gstAmount, this`totalAmount
      ensures product == p && quantity == old(quantity)
      ensures p.Some? ==> unitPrice == p.value.price && gstRate == p.value.gstRate
      ensures p.Some? ==> View() == Calculated(p.value.price, quantity, p.value.gstRate)
      ensures p.None? ==> View() == old(View())
    {
      product := p;
      if p.Some? {
        unitPrice := p.value.price;
        gstRate := p.value.gstRate;
        CalculateAmounts();
      }
    }

    /** A null quantity is stored as 1; the amounts are recalculated. */
    method SetQuantity(q: Option<int>)
      modifies this`quantity, this`gstAmount, this`totalAmount
      ensures quantity == OrElse(q, 1) && unitPrice == old(unitPrice) && gstRate == old(gstRate)
      ensures invoice == old(invoice) && product == old(product)
      ensures View() == Calculated(unitPrice, OrElse(q, 1), gstRate)
    {
      quantity := if q.Some? then q.value else 1;
      CalculateAmounts();
    }

    /** A null price is stored as 0; the amounts are recalculated. */
    method SetUnitPrice(price: Option<Cents>)
      modifies this`unitPrice, this`gstAmount, this`totalAmount
      ensures unitPrice == OrElse(price, 0) && quantity == old(quantity) && gstRate == old(gstRate)
      ensures invoice == old(invoice) && product == old(product)
      ensures View() == Calculated(OrElse(price, 0), quantity, gstRate)
    {
      unitPrice := if price.Some? then price.value else 0;
      CalculateAmounts();
    }

    /** A null rate is stored as 0; the amounts are recalculated. */
    method SetGstRate(rate: Option<BasisRate>)
      modifies this`gstRate, this`gstAmount, this`totalAmount
      ensures gstRate == OrElse(rate, 0) && unitPrice == old(unitPrice) && quantity == old(quantity)
      ensures invoice == old(invoice) && product == old(product)
      ensures View() == Calculated(unitPrice, quantity, OrElse(rate, 0))
    {
      gstRate := if rate.Some? then rate.value else 0;
      CalculateAmounts();
    }

    /**
     * Overwrites the GST without recalculating: the item stays consistent
     * only when the value written is the calculated one.
     */
    method SetGstAmount(g: Cents)
      modifies this`gstAmount
      ensures gstAmount == g
      ensures old(Consistent()) ==> (Consistent() <==> g == old(gstAmount))
    {
      gstAmount := g;
    }

    /** Overwrites the total without recalculating; consistency survives only the calculated value. */
    method SetTotalAmount(t: Cents)
      modifies this`totalAmount
      ensures totalAmount == t
      ensures old(Consistent()) ==> (Consistent() <==> t == old(totalAmount))
    {
      totalAmount := t;
    }
  }

  /** The lines of a list of items. */
  function Views(items: seq<InvoiceItem>): (ls: seq<Line>)
    reads items
    ensures |ls| == |items|
    ensures forall i :: 0 <= i < |items| ==> ls[i] == items[i].View()
  {
    if items == [] then [] else Views(items[..|items| - 1]) + [items[|items| - 1].View()]
  }

  /** The list without its first occurrence of x (List.remove by identity); unchanged when x is absent. */
  function RemoveFirst<T(==)>(s: seq<T>, x: T): seq<T>
  {
    if s == [] then [] else if s[0] == x then s[1..] else [s[0]] + RemoveFirst(s[1..], x)
  }

  /** An absent element leaves the list unchanged. */
  lemma {:induction false} RemoveFirstAbsent<T>(s: seq<T>, x: T)
    requires x !in s
    ensures RemoveFirst(s, x) == s
  {
    if s != [] {
      assert s[0] != x;
      assert x !in s[1..];
      RemoveFirstAbsent(s[1..], x);
    }
  }

  /** When x first occurs at index i, RemoveFirst deletes index i and nothing else. */
  lemma {:induction false} RemoveFirstAt<T>(s: seq<T>, x: T, i: int)
    requires 0 <= i < |s| && s[i] == x && x !in s[..i]
    ensures RemoveFirst(s, x) == s[..i] + s[i + 1..]
  {
    if i > 0 {
      assert s[0] == s[..i][0];
      var t := s[1..];
      assert t[..i - 1] == s[1..i];
      assert x !in t[..i - 1] by {
        forall k | 0 <= k < i - 1 ensures t[k] != x {
          assert t[k] == s[..i][k + 1];
        }
      }
      RemoveFirstAt(t, x, i - 1);
      assert s[..i] == [s[0]] + t[..i - 1];
      assert t[i..] == s[i + 1..];
    }
  }

  /** An invoice: header fields, stored totals and the list of its items. */
  class Invoice {
    var invoiceNumber: Option<string>
    var invoiceDate: Option<Date>
    var customer: Option<Customer>
    var user: Option<User>
    var subtotal: Cents
    var totalGst: Cents
    var totalAmount: Cents
    var createdAt: Option<DateTime>
    var items: seq<InvoiceItem>

    /** A new invoice has no header values, zero totals and no items. */
    constructor ()
      ensures invoiceNumber == None && invoiceDate == None && customer == None && user == None
      ensures createdAt == None
      ensures subtotal == 0 && totalGst == 0 && totalAmount == 0
      ensures items == []
    {
      invoiceNumber := None;
      invoiceDate := None;
      customer := None;
      user := None;
      subtotal := 0;
      totalGst := 0;
      totalAmount := 0;
      createdAt := None;
      items := [];
    }

    /** The lines of the items, in list order. */
    function Lines(): seq<Line>
      reads this`items, items
    {
      Views(items)
    }

    /** Appends the item and points it back at this invoice. */
    method AddItem(item: InvoiceItem)
      modifies this`items, item`invoice
      ensures items == old(items) + [item]
      ensures item.invoice == this
    {
      items := items + [item];
      item.SetInvoice(this);
    }

    /** Removes the item's first occurrence, if any, and always clears its back-pointer. */
    method RemoveItem(item: InvoiceItem)
      modifies this`items, item`invoice
      ensures items == RemoveFirst(old(items), item)
      ensures item.invoice == null
    {
      items := RemoveFirst(items, item);
      item.SetInvoice(null);
    }

    /** Before the first save: the creation time and the invoice date default to now and today when unset. */
    method OnCreate(now: DateTime, today: Date)
      modifies this`createdAt, this`invoiceDate
      ensures createdAt == Defaulted(old(createdAt), now)
      ensures invoiceDate == Defaulted(old(invoiceDate), today)
    {
      if createdAt.None? {
        createdAt := Some(now);
      }
      if invoiceDate.None? {
        invoiceDate := Some(today);
      }
    }
  }

  /** A field after defaulting: kept when set, otherwise the default. */
  function Defaulted<T>(field: Option<T>, default: T): (r: Option<T>)
    ensures r.Some?
    ensures field.Some? ==> r == field
  {
    if field.None? then Some(default) else field
  }

  /**
   * Defaulting never overwrites a set value and is idempotent: a second
   * pass, at any later time, changes nothing.
   */
  lemma {:induction false} DefaultedIdempotent<T>(field: Option<T>, first: T, second: T)
    ensures Defaulted(Defaulted(field, first), second) == Defaulted(field, first)
    ensures Defaulted(field, first).value == (if field.Some? then field.value else first)
  {
  }
}
