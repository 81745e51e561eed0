/**
 * InvoiceController: the GST breakdown of an invoice by rate (a HashMap
 * filled with computeIfAbsent, one GstBreakdown accumulator per rate, with
 * CGST and SGST as halves of the rate's GST) and the guards of the create
 * form in front of InvoiceService.createInvoice.
 */
module InvoiceController {

  import opened Wrappers
  import opened Money
  import opened Calendar
  import opened Model
  import opened GroupBy
  import opened InvoiceService

  /** The per-rate accumulator of the breakdown. */
  class GstBreakdown {
    var taxableAmount: Cents
    var gstAmount: Cents

    /** Both sums start at zero. */
    constructor ()
      ensures taxableAmount == 0 && gstAmount == 0
    {
      taxableAmount := 0;
      gstAmount := 0;
    }

    /** Adds one item's taxable value and GST. */
    method AddItem(taxable: Cents, gst: Cents)
      modifies this
      ensures taxableAmount == old(taxableAmount) + taxable
      ensures gstAmount == old(gstAmount) + gst
    {
      taxableAmount := taxableAmount + taxable;
      gstAmount := gstAmount + gst;
    }

    /**
     * getCgst: half the rate's GST, HALF_UP to the hundredth.  Two such
     * halves exceed the GST by its parity in hundredths when it is
     * non-negative, and are never more than one hundredth away from it.
     */
    function Cgst(): (c: Cents)
      reads this
      ensures gstAmount >= 0 ==> 2 * c - gstAmount == gstAmount % 2
      ensures -1 <= 2 * c - gstAmount <= 1
    {
      HalfShareSplit(gstAmount);
      HalfShare(gstAmount)
    }

    /** getSgst: the same share as CGST. */
    function Sgst(): (s: Cents)
      reads this
      ensures s == Cgst()
      ensures gstAmount >= 0 ==> 2 * s - gstAmount == gstAmount % 2
    {
      HalfShareSplit(gstAmount);
      HalfShare(gstAmount)
    }
  }

  /** The GST amount stored in a line. */
  function LineGstAmount(l: Line): Cents
  {
    l.gstAmount
  }

  /** The (gstRate, amount) pair of every line, in line order. */
  function RatePairs(lines: seq<Line>, amount: Line -> Cents): (ps: seq<(BasisRate, int)>)
    ensures |ps| == |lines|
  {
    if lines == [] then [] else RatePairs(lines[..|lines| - 1], amount) + [(lines[|lines| - 1].gstRate, amount(lines[|lines| - 1]))]
  }

  /** The rates occurring among the lines. */
  function Rates(lines: seq<Line>): set<BasisRate>
  {
    set i | 0 <= i < |lines| :: lines[i].gstRate
  }

  lemma RatePairsSnoc(lines: seq<Line>, l: Line, amount: Line -> Cents)
    ensures RatePairs(lines + [l], amount) == RatePairs(lines, amount) + [(l.gstRate, amount(l))]
  {
    assert (lines + [l])[..|lines|] == lines;
  }

  /** The keys of the rate pairs are the rates of the lines. */
  lemma {:induction false} RatePairsKeys(lines: seq<Line>, amount: Line -> Cents)
    ensures Keys(RatePairs(lines, amount)) == Rates(lines)
  {
    if lines != [] {
      var init, last := lines[..|lines| - 1], lines[|lines| - 1];
      assert lines == init + [last];
      RatePairsKeys(init, amount);
      RatePairsSnoc(init, last, amount);
      KeysSnoc(RatePairs(init, amount), (last.gstRate, amount(last)));
      RatesSnoc(init, last);
    }
  }

  lemma {:induction false} RatePairsConcat(a: seq<Line>, b: seq<Line>, amount: Line -> Cents)
    ensures RatePairs(a + b, amount) == RatePairs(a, amount) + RatePairs(b, amount)
    decreases |b|
  {
    if b == [] {
      assert a + b == a;
    } else {
      var init, last := b[..|b| - 1], b[|b| - 1];
      assert a + b == (a + init) + [last];
      assert b == init + [last];
      RatePairsConcat(a, init, amount);
      RatePairsSnoc(a + init, last, amount);
      RatePairsSnoc(init, last, amount);
    }
  }

  /** The taxable values add up to the lines' subtotal. */
  lemma {:induction false} TaxableTotal(lines: seq<Line>)
    ensures Total(RatePairs(lines, LineSubtotal)) == SubtotalOf(lines)
  {
    if lines != [] {
      var init := lines[..|lines| - 1];
      assert lines == init + [lines[|lines| - 1]];
      RatePairsSnoc(init, lines[|lines| - 1], LineSubtotal);
      TaxableTotal(init);
    }
  }

  /** The GST values add up to the lines' GST. */
  lemma {:induction false} GstTotal(lines: seq<Line>)
    ensures Total(RatePairs(lines, LineGstAmount)) == GstOf(lines)
  {
    if lines != [] {
      var init := lines[..|lines| - 1];
      assert lines == init + [lines[|lines| - 1]];
      RatePairsSnoc(init, lines[|lines| - 1], LineGstAmount);
      GstTotal(init);
    }
  }

  /**
   * calculateGstBreakdown: one accumulator per rate occurring among the
   * invoice's items, distinct objects for distinct rates, each holding the
   * sum of getSubtotal() and of the GST of exactly the items with that rate.
   * The invoice and its items are left untouched.
   */
  method CalculateGstBreakdown(inv: Invoice) returns (breakdown: map<BasisRate, GstBreakdown>)
    ensures Accumulates(breakdown, inv.Lines())
    ensures forall r :: r in breakdown ==> fresh(breakdown[r])
  {
    ghost var lines := inv.Lines();
    breakdown := map[];
    var i := 0;
    while i < |inv.items|
      invariant 0 <= i <= |inv.items|
      invariant Accumulates(breakdown, lines[..i])
      invariant forall r :: r in breakdown ==> fresh(breakdown[r])
    {
      var item := inv.items[i];
      assert item.View() == old(item.View()) == lines[i];
      assert lines[..i + 1] == lines[..i] + [lines[i]];
      ghost var previous := breakdown;
      breakdown := FoldItem(breakdown, lines[..i], lines[i], item.gstRate, item.Subtotal(), item.gstAmount);
      forall r | r in breakdown ensures fresh(breakdown[r]) {
        if r in previous {
          assert breakdown[r] == previous[r];
        }
      }
      i := i + 1;
    }
    assert lines[..i] == lines;
  }

  /**
   * The state of the breakdown after the lines ls: exactly their rates as
   * keys, distinct accumulators, and per rate the sums of the taxable values
   * and of the GST of the lines with that rate.
   */
  predicate Accumulates(breakdown: map<BasisRate, GstBreakdown>, ls: seq<Line>)
    reads breakdown.Values
  {
    && breakdown.Keys == Rates(ls)
    && DistinctValues(breakdown)
    && forall r :: r in breakdown ==>
         && breakdown[r].taxableAmount == SumFor(RatePairs(ls, LineSubtotal), r)
         && breakdown[r].gstAmount == SumFor(RatePairs(ls, LineGstAmount), r)
  }

  /** One pass of the loop of calculateGstBreakdown: the item of line l is folded in. */
  method FoldItem(breakdown: map<BasisRate, GstBreakdown>, ghost ls: seq<Line>, ghost l: Line,
                  rate: BasisRate, taxable: Cents, gst: Cents)
    returns (next: map<BasisRate, GstBreakdown>)
    requires Accumulates(breakdown, ls)
    requires rate == l.gstRate && taxable == LineSubtotal(l) && gst == l.gstAmount
    modifies breakdown.Values
    ensures Accumulates(next, ls + [l])
    ensures forall r :: r in next ==> r in breakdown || fresh(next[r])
    ensures forall r :: r in breakdown ==> r in next && next[r] == breakdown[r]
  {
    RatesSnoc(ls, l);
    if rate !in breakdown {
      RateAbsent(ls, rate);
    }
    next := ComputeIfAbsentAdd(breakdown, rate, taxable, gst);
    forall r | r in next
      ensures next[r].taxableAmount == SumFor(RatePairs(ls + [l], LineSubtotal), r)
      ensures next[r].gstAmount == SumFor(RatePairs(ls + [l], LineGstAmount), r)
    {
      RateSumSnoc(ls, l, r);
    }
  }

  /** Accumulators held by distinct rates are distinct objects. */
  predicate DistinctValues(breakdown: map<BasisRate, GstBreakdown>)
  {
    forall r, s :: r in breakdown && s in breakdown && r != s ==> breakdown[r] != breakdown[s]
  }

  /**
   * breakdown.computeIfAbsent(rate, k -> new GstBreakdown()).addItem(taxable, gst):
   * the rate's accumulator, created empty when missing, takes the item;
   * every other accumulator is left as it was.
   */
  method ComputeIfAbsentAdd(breakdown: map<BasisRate, GstBreakdown>, rate: BasisRate, taxable: Cents, gst: Cents)
    returns (next: map<BasisRate, GstBreakdown>)
    requires DistinctValues(breakdown)
    modifies breakdown.Values
    ensures next.Keys == breakdown.Keys + {rate} && DistinctValues(next)
    ensures forall r :: r in breakdown ==> next[r] == breakdown[r]
    ensures rate !in breakdown ==> fresh(next[rate])
    ensures next[rate].taxableAmount == (if rate in breakdown then old(breakdown[rate].taxableAmount) else 0) + taxable
    ensures next[rate].gstAmount == (if rate in breakdown then old(breakdown[rate].gstAmount) else 0) + gst
    ensures forall r :: r in breakdown && r != rate ==>
              next[r].taxableAmount == old(breakdown[r].taxableAmount) && next[r].gstAmount == old(breakdown[r].gstAmount)
  {
    next := breakdown;
    if rate !in next {
      var created := new GstBreakdown();
      next := next[rate := created];
    }
    var acc := next[rate];
    acc.AddItem(taxable, gst);
    forall r | r in breakdown && r != rate
      ensures next[r].taxableAmount == old(breakdown[r].taxableAmount) && next[r].gstAmount == old(breakdown[r].gstAmount)
    {
      assert next[r] != acc;
    }
  }

  /** A rate that no line has sums to nothing. */
  lemma RateAbsent(lines: seq<Line>, r: BasisRate)
    requires r !in Rates(lines)
    ensures SumFor(RatePairs(lines, LineSubtotal), r) == 0
    ensures SumFor(RatePairs(lines, LineGstAmount), r) == 0
  {
    RatePairsKeys(lines, LineSubtotal);
    RatePairsKeys(lines, LineGstAmount);
    SumForAbsent(RatePairs(lines, LineSubtotal), r);
    SumForAbsent(RatePairs(lines, LineGstAmount), r);
  }

  /** Folding in line l adds its rate to the rates seen. */
  lemma RatesSnoc(ls: seq<Line>, l: Line)
    ensures Rates(ls + [l]) == Rates(ls) + {l.gstRate}
  {
    var ll := ls + [l];
    assert ll[|ls|] == l;
    assert forall j :: 0 <= j < |ls| ==> ll[j] == ls[j];
  }

  /** Folding in line l adds its amounts to the sums of its own rate only. */
  lemma RateSumSnoc(ls: seq<Line>, l: Line, r: BasisRate)
    ensures SumFor(RatePairs(ls + [l], LineSubtotal), r)
            == SumFor(RatePairs(ls, LineSubtotal), r) + (if r == l.gstRate then LineSubtotal(l) else 0)
    ensures SumFor(RatePairs(ls + [l], LineGstAmount), r)
            == SumFor(RatePairs(ls, LineGstAmount), r) + (if r == l.gstRate then l.gstAmount else 0)
  {
    RatePairsSnoc(ls, l, LineSubtotal);
    RatePairsSnoc(ls, l, LineGstAmount);
    SumForAppend(RatePairs(ls, LineSubtotal), (l.gstRate, LineSubtotal(l)), r);
    SumForAppend(RatePairs(ls, LineGstAmount), (l.gstRate, l.gstAmount), r);
  }

  /**
   * Conservation: over the rates of the breakdown, listed in any order
   * without repeats (however the HashMap iterates), the taxable sums add up
   * to the invoice subtotal of the lines and the GST sums to their GST.
   */
  lemma BreakdownConserves(lines: seq<Line>, rates: seq<BasisRate>)
    requires forall i, j :: 0 <= i < j < |rates| ==> rates[i] != rates[j]
    requires forall r :: r in Rates(lines) ==> r in rates
    ensures SumOverKeys(rates, RatePairs(lines, LineSubtotal)) == SubtotalOf(lines)
    ensures SumOverKeys(rates, RatePairs(lines, LineGstAmount)) == GstOf(lines)
  {
    RatePairsKeys(lines, LineSubtotal);
    RatePairsKeys(lines, LineGstAmount);
    forall p | p in RatePairs(lines, LineSubtotal) ensures p.0 in rates {
      assert p.0 in Keys(RatePairs(lines, LineSubtotal));
    }
    forall p | p in RatePairs(lines, LineGstAmount) ensures p.0 in rates {
      assert p.0 in Keys(RatePairs(lines, LineGstAmount));
    }
    SumOverKeysConserves(rates, RatePairs(lines, LineSubtotal));
    SumOverKeysConserves(rates, RatePairs(lines, LineGstAmount));
    TaxableTotal(lines);
    GstTotal(lines);
  }

  lemma RatePairsAround(b: seq<Line>, j: int, amount: Line -> Cents)
    requires 0 <= j < |b|
    ensures RatePairs(b, amount)
            == (RatePairs(b[..j], amount) + [(b[j].gstRate, amount(b[j]))]) + RatePairs(b[j + 1..], amount)
  {
    var upto := b[..j + 1];
    assert upto == b[..j] + [b[j]];
    assert b == upto + b[j + 1..];
    RatePairsConcat(upto, b[j + 1..], amount);
    RatePairsSnoc(b[..j], b[j], amount);
  }

  /** Taking line j out of the lines takes its pair out of the rate pairs. */
  lemma RatePairsSplit(b: seq<Line>, j: int, amount: Line -> Cents)
    requires 0 <= j < |b|
    ensures multiset(RatePairs(b, amount))
            == multiset(RatePairs(b[..j] + b[j + 1..], amount)) + multiset{(b[j].gstRate, amount(b[j]))}
  {
    RatePairsAround(b, j, amount);
    RatePairsConcat(b[..j], b[j + 1..], amount);
    MultisetOfThree(RatePairs(b[..j], amount), (b[j].gstRate, amount(b[j])), RatePairs(b[j + 1..], amount));
  }

  lemma MultisetOfThree<T>(xs: seq<T>, m: T, ys: seq<T>)
    ensures multiset((xs + [m]) + ys) == multiset(xs + ys) + multiset{m}
  {
    assert multiset((xs + [m]) + ys) == multiset(xs) + multiset{m} + multiset(ys);
  }

  /** The rate pairs of a permutation of the lines are a permutation of the rate pairs. */
  lemma {:induction false} RatePairsPermutation(a: seq<Line>, b: seq<Line>, amount: Line -> Cents)
    requires multiset(a) == multiset(b)
    ensures multiset(RatePairs(a, amount)) == multiset(RatePairs(b, amount))
    decreases |a|
  {
    if a == [] {
      assert |b| == |multiset(b)| == 0;
    } else {
      var init, last := a[..|a| - 1], a[|a| - 1];
      assert a == init + [last];
      assert last in multiset(b);
      var j :| 0 <= j < |b| && b[j] == last;
      PermutationRemove(init, last, b, j);
      var rest := b[..j] + b[j + 1..];
      RatePairsPermutation(init, rest, amount);
      RatePairsSnoc(init, last, amount);
      RatePairsSplit(b, j, amount);
    }
  }

  /**
   * The breakdown depends on the items only as a collection: reordering the
   * items gives the same rates and the same sums per rate, so the map built
   * twice for one invoice is the same map.
   */
  lemma BreakdownOrderIndependent(a: seq<Line>, b: seq<Line>, r: BasisRate)
    requires multiset(a) == multiset(b)
    ensures Rates(a) == Rates(b)
    ensures SumFor(RatePairs(a, LineSubtotal), r) == SumFor(RatePairs(b, LineSubtotal), r)
    ensures SumFor(RatePairs(a, LineGstAmount), r) == SumFor(RatePairs(b, LineGstAmount), r)
  {
    RatePairsPermutation(a, b, LineSubtotal);
    RatePairsPermutation(a, b, LineGstAmount);
    SumForPermutation(RatePairs(a, LineSubtotal), RatePairs(b, LineSubtotal), r);
    SumForPermutation(RatePairs(a, LineGstAmount), RatePairs(b, LineGstAmount), r);
    KeysPermutation(RatePairs(a, LineSubtotal), RatePairs(b, LineSubtotal));
    RatePairsKeys(a, LineSubtotal);
    RatePairsKeys(b, LineSubtotal);
  }

  /** The page the create form submission ends on. */
  datatype CreatePage =
    | FormWithErrors                       // bean validation failed: the form again
    | FormMissingItems                     // "Please add at least one item to the invoice"
    | FormCreateFailed(error: ServiceError) // createInvoice threw: the form with its message
    | Created(invoice: Invoice)            // redirect to the list

  /**
   * The POST handler of the create form: validation errors and a null or
   * empty item list send the form back without calling createInvoice;
   * otherwise the service's result decides between the list and the form.
   */
  method SubmitCreate(request: InvoiceRequest, hasErrors: bool, user: User, customers: map<int, Customer>,
                      catalog: map<int, Product>, millis: nat, random: nat, today: Date, now: DateTime)
    returns (page: CreatePage)
    requires millis >= 100000 && random < 1000
    ensures hasErrors ==> page == FormWithErrors
    ensures !hasErrors && (request.items.None? || request.items.value == []) ==> page == FormMissingItems
    ensures page.Created? <==>
              && !hasErrors && request.items.Some? && request.items.value != []
              && FindCustomer(customers, request.customerId).Success?
              && BuildItems(request.items.value, catalog).Success?
    ensures page.Created? ==>
              && fresh(page.invoice)
              && |page.invoice.items| == |request.items.value| > 0
              && page.invoice.totalAmount == page.invoice.subtotal + page.invoice.totalGst
    ensures page.FormCreateFailed? ==> page.error in {CustomerNotFound, ProductNotFound}
  {
    if hasErrors {
      return FormWithErrors;
    }
    if request.items.None? || request.items.value == [] {
      return FormMissingItems;
    }
    var created := CreateInvoice(request, user, customers, catalog, millis, random, today, now);
    if created.Failure? {
      return FormCreateFailed(created.error);
    }
    return Created(created.value);
  }
}
