/**
 * AdminController: the figures of the admin pages.  The dashboard's revenue
 * loop, its five most recent invoices and its month chart; the guard that
 * keeps an admin from deleting their own account; the per-page statistics
 * (records with a non-blank GSTIN, e-mail or HSN code, distinct creators,
 * the sorted distinct GST rates); and the per-creator customer distribution
 * built in a HashMap of UserDistribution counters and sorted by count.
 */
module AdminController {

  import opened Wrappers
  import opened Money
  import opened Text
  import opened Calendar
  import opened Model
  import opened GroupBy
  import opened InvoiceRepository
  import opened InvoiceService
  import opened Sorting
  import opened DashboardService

  // ---------------------------------------------------------------- dashboard

  /**
   * adminDashboard's revenue loop: the sum of every invoice's total amount,
   * zero for no invoices, and the same figure the statistics pages get from
   * their stream reduce.
   */
  method TotalRevenue(invoices: seq<InvoiceRow>) returns (total: Cents)
    ensures total == SumAmount(invoices)
    ensures total == ReduceAmount(0, invoices)
  {
    total := 0;
    var i := 0;
    while i < |invoices|
      invariant 0 <= i <= |invoices|
      invariant total == SumAmount(invoices[..i])
    {
      assert invoices[..i + 1][..i] == invoices[..i];
      total := total + invoices[i].totalAmount;
      i := i + 1;
    }
    assert invoices[..i] == invoices;
    ReduceIsSum(0, invoices);
  }

  /**
   * viewAllInvoices and systemStatistics: total revenue and total GST as
   * stream reductions from zero, which are the plain sums of the columns.
   */
  function InvoiceTotals(invoices: seq<InvoiceRow>): (t: (Cents, Cents))
    ensures t == (SumAmount(invoices), SumGst(invoices))
  {
    ReduceIsSum(0, invoices);
    (ReduceAmount(0, invoices), ReduceGst(0, invoices))
  }

  /** recentInvoices: the first min(5, n) invoices of the list, in list order. */
  function RecentInvoices(all: seq<InvoiceRow>): (recent: seq<InvoiceRow>)
    ensures |recent| == if |all| < 5 then |all| else 5
    ensures recent == all[..|recent|]
  {
    if |all| > 5 then all[..5] else all
  }

  /**
   * The dashboard chart: one full month name and one revenue value per row
   * of getMonthlyRevenueAll, in row order, so the months come out ascending
   * and the values add up to the revenue of all invoices.
   */
  method MonthChart(invoices: seq<InvoiceRow>) returns (labels: seq<string>, values: seq<Cents>)
    ensures var data := MonthlyRevenueAll(invoices);
            && |labels| == |values| == |data|
            && forall i :: 0 <= i < |data| ==> labels[i] == MonthName(data[i].key) && values[i] == data[i].total
    ensures forall i, j :: 0 <= i < j < |labels| ==> MonthOfName(labels[i]) < MonthOfName(labels[j])
    ensures SumValues(values) == SumAmount(invoices)
  {
    var data := MonthlyRevenueAll(invoices);
    labels, values := ChartRows(data);
    MonthsAscend(invoices);
    MonthNamesAscend(data, labels);
    MonthlyRevenueTotal(invoices);
    ValuesOfBuckets(values, data);
  }

  /** The loop over the monthly rows: Month.of(month).name() and the revenue of each row. */
  method ChartRows(data: seq<Bucket<MonthNumber>>) returns (labels: seq<string>, values: seq<Cents>)
    ensures |labels| == |values| == |data|
    ensures forall i :: 0 <= i < |data| ==> labels[i] == MonthName(data[i].key) && values[i] == data[i].total
  {
    labels, values := [], [];
    var i := 0;
    while i < |data|
      invariant 0 <= i <= |data| && |labels| == |values| == i
      invariant forall j :: 0 <= j < i ==> labels[j] == MonthName(data[j].key) && values[j] == data[j].total
    {
      labels := labels + [MonthName(data[i].key)];
      values := values + [data[i].total];
      i := i + 1;
    }
  }

  // ---------------------------------------------------------------- users

  datatype AdminError = SelfDelete

  /**
   * deleteUser: refused, with nothing deleted, when the target is the
   * signed-in admin; otherwise that one account is removed and every other
   * account is kept as it was.
   */
  function DeleteUser(users: map<int, User>, current: User, id: int): (r: Result<map<int, User>, AdminError>)
    ensures r.Failure? <==> id == current.id
    ensures r.Failure? ==> r.error == SelfDelete
    ensures r.Success? ==> r.value.Keys == users.Keys - {id}
    ensures r.Success? ==> forall k :: k in r.value ==> r.value[k] == users[k]
  {
    if current.id == id then Failure(SelfDelete) else Success(users - {id})
  }

  // ---------------------------------------------------------------- statistics

  /** x != null && !x.trim().isEmpty() */
  predicate HasText(s: Option<string>)
  {
    s.Some? && !IsBlank(s.value)
  }

  /**
   * A field has text exactly when it is present and holds a character above
   * U+0020; a GSTIN, e-mail or HSN code of spaces alone is not counted.
   */
  lemma HasTextMeans(s: Option<string>)
    ensures HasText(s) <==> s.Some? && exists i :: 0 <= i < |s.value| && s.value[i] > ' '
  {
    if s.Some? {
      BlankMeansNoVisibleChar(s.value);
    }
  }

  /**
   * stream().filter(x -> field != null && !field.trim().isEmpty()).count():
   * at most the number of records, zero exactly when no record has text in
   * the field, and all of them exactly when every record has.
   */
  function CountWithText<T>(xs: seq<T>, field: T -> Option<string>): (n: nat)
    ensures n <= |xs|
    ensures n == 0 <==> forall i :: 0 <= i < |xs| ==> !HasText(field(xs[i]))
    ensures n == |xs| <==> forall i :: 0 <= i < |xs| ==> HasText(field(xs[i]))
  {
    if xs == [] then 0
    else
      var init := xs[..|xs| - 1];
      assert forall i :: 0 <= i < |init| ==> init[i] == xs[i];
      CountWithText(init, field) + (if HasText(field(xs[|xs| - 1])) then 1 else 0)
  }

  function GstinOf(c: Customer): Option<string>
  {
    c.gstin
  }

  function EmailOf(c: Customer): Option<string>
  {
    c.email
  }

  function HsnOf(p: Product): Option<string>
  {
    p.hsnCode
  }

  /** stream().distinct(): the values of s, each once, at its first position. */
  function Distinct(s: seq<int>): (d: seq<int>)
    ensures forall x :: x in d <==> x in s
    ensures forall i, j :: 0 <= i < j < |d| ==> d[i] != d[j]
    ensures |d| <= |s|
  {
    if s == [] then []
    else
      var init := s[..|s| - 1];
      var last := s[|s| - 1];
      assert s == init + [last];
      var rest := Distinct(init);
      if last in rest then rest else rest + [last]
  }

  /** A list without repeats has as many distinct values as elements. */
  lemma {:induction false} NoRepeatsCard(d: seq<int>)
    requires forall i, j :: 0 <= i < j < |d| ==> d[i] != d[j]
    ensures |set x | x in d| == |d|
  {
    if d != [] {
      NoRepeatsCard(d[1..]);
      assert (set x | x in d) == {d[0]} + (set x | x in d[1..]);
      assert d[0] !in (set x | x in d[1..]);
    }
  }

  /** stream().map(id).distinct().count(): the number of distinct ids. */
  function DistinctCount(ids: seq<int>): (n: nat)
    ensures n == |set x | x in ids|
    ensures n <= |ids|
    ensures n == 0 <==> ids == []
  {
    var d := Distinct(ids);
    NoRepeatsCard(d);
    assert (set x | x in d) == (set x | x in ids);
    assert ids != [] ==> ids[0] in d;
    |d|
  }

  /**
   * uniqueUsers: stream().map(x -> x.getCreatedBy().getId()).distinct().count()
   * over customers or products: the number of distinct creator ids, at most
   * the number of records, zero exactly when there are none.
   */
  function UniqueUsers<T>(xs: seq<T>, creatorId: T -> int): (n: nat)
    ensures n == |set x | x in xs :: creatorId(x)|
    ensures n <= |xs|
    ensures n == 0 <==> xs == []
  {
    var ids := seq(|xs|, i requires 0 <= i < |xs| => creatorId(xs[i]));
    assert (set y | y in ids) == (set x | x in xs :: creatorId(x)) by {
      forall y | y in (set x | x in xs :: creatorId(x)) ensures y in ids {
        var x :| x in xs && creatorId(x) == y;
        var i :| 0 <= i < |xs| && xs[i] == x;
        assert ids[i] == y;
      }
    }
    DistinctCount(ids)
  }

  function CustomerCreatorId(c: Customer): int
  {
    c.createdBy.id
  }

  function ProductCreatorId(p: Product): int
  {
    p.createdBy.id
  }

  /** uniqueGstRates: the set of the products' GST rates. */
  function UniqueGstRates(products: seq<Product>): set<BasisRate>
  {
    set p | p in products :: p.gstRate
  }

  /**
   * gstRates: the set of rates copied to a list and sorted: strictly
   * ascending, exactly the rates that occur, as many as uniqueGstRates has.
   */
  function GstRates(products: seq<Product>): (rates: seq<BasisRate>)
    ensures StrictlyIncreasing(rates)
    ensures (set r | r in rates) == UniqueGstRates(products)
    ensures |rates| == |UniqueGstRates(products)|
  {
    var all := seq(|products|, i requires 0 <= i < |products| => products[i].gstRate);
    SortedDistinctSpec(all);
    assert (set y | y in all) == UniqueGstRates(products) by {
      forall y | y in UniqueGstRates(products) ensures y in all {
        var p :| p in products && p.gstRate == y;
        var i :| 0 <= i < |products| && products[i] == p;
        assert all[i] == y;
      }
    }
    SortedDistinct(all)
  }

  // ---------------------------------------------------------------- distribution

  /** The per-creator counter of viewAllCustomers. */
  class UserDistribution {
    var username: string
    var role: string
    var customerCount: int

    constructor (username: string, role: string, customerCount: int)
      ensures this.username == username && this.role == role && this.customerCount == customerCount
    {
      this.username := username;
      this.role := role;
      this.customerCount := customerCount;
    }

    /** incrementCount: one more customer, name and role untouched. */
    method IncrementCount()
      modifies this`customerCount
      ensures customerCount == old(customerCount) + 1
    {
      customerCount := customerCount + 1;
    }
  }

  /** One entry of the sorted distribution handed to the page. */
  datatype DistributionRow = DistributionRow(username: string, role: string, customerCount: int)

  function RowCount(r: DistributionRow): int
  {
    r.customerCount
  }

  /** The usernames of the customers' creators. */
  function Creators(cs: seq<Customer>): set<string>
  {
    set i | 0 <= i < |cs| :: cs[i].createdBy.username
  }

  /** One (creator username, 1) pair per customer, in list order. */
  function CreatorPairs(cs: seq<Customer>): (ps: seq<(string, int)>)
    ensures |ps| == |cs|
  {
    if cs == [] then [] else CreatorPairs(cs[..|cs| - 1]) + [(cs[|cs| - 1].createdBy.username, 1)]
  }

  /** The number of customers created by the user called name. */
  function CountBy(cs: seq<Customer>, name: string): int
  {
    SumFor(CreatorPairs(cs), name)
  }

  /** The role name of the first customer's creator called name; "" when there is none. */
  function RoleOf(cs: seq<Customer>, name: string): string
  {
    if cs == [] then ""
    else if name in Creators(cs[..|cs| - 1]) then RoleOf(cs[..|cs| - 1], name)
    else if cs[|cs| - 1].createdBy.username == name then RoleName(cs[|cs| - 1].createdBy.role)
    else ""
  }

  lemma CreatorsSnoc(cs: seq<Customer>, c: Customer)
    ensures Creators(cs + [c]) == Creators(cs) + {c.createdBy.username}
  {
    var cc := cs + [c];
    assert cc[|cs|] == c;
    assert forall j :: 0 <= j < |cs| ==> cc[j] == cs[j];
  }

  /** Folding in one customer adds one to its creator's count and to no other. */
  lemma CountSnoc(cs: seq<Customer>, c: Customer, name: string)
    ensures CountBy(cs + [c], name) == CountBy(cs, name) + (if c.createdBy.username == name then 1 else 0)
    ensures RoleOf(cs + [c], name)
            == if name in Creators(cs) then RoleOf(cs, name)
               else if c.createdBy.username == name then RoleName(c.createdBy.role) else ""
  {
    assert (cs + [c])[..|cs|] == cs;
  }

  /** A user's count is positive exactly when the user created one of the customers. */
  lemma {:induction false} CountPositive(cs: seq<Customer>, name: string)
    ensures CountBy(cs, name) >= 0
    ensures CountBy(cs, name) >= 1 <==> name in Creators(cs)
  {
    if cs != [] {
      var init, last := cs[..|cs| - 1], cs[|cs| - 1];
      assert cs == init + [last];
      CountPositive(init, name);
      CountSnoc(init, last, name);
      CreatorsSnoc(init, last);
    }
  }

  /** The pairs hold one unit per customer, under the creators' names. */
  lemma {:induction false} CreatorPairsFacts(cs: seq<Customer>)
    ensures Total(CreatorPairs(cs)) == |cs|
    ensures Keys(CreatorPairs(cs)) == Creators(cs)
  {
    if cs != [] {
      var init, last := cs[..|cs| - 1], cs[|cs| - 1];
      assert cs == init + [last];
      CreatorPairsFacts(init);
      KeysSnoc(CreatorPairs(init), (last.createdBy.username, 1));
      CreatorsSnoc(init, last);
    }
  }

  /** Counters held by distinct names are distinct objects. */
  predicate DistinctCounters(m: map<string, UserDistribution>)
  {
    forall a, b :: a in m && b in m && a != b ==> m[a] != m[b]
  }

  /**
   * The state of the counting loop after the customers cs: one counter per
   * creator, distinct objects, each holding its name, the role of its first
   * customer's creator and the number of its customers; seen lists the names
   * once each, in the order they first appeared.
   */
  predicate Tallies(m: map<string, UserDistribution>, seen: seq<string>, cs: seq<Customer>)
    reads m.Values
  {
    && m.Keys == Creators(cs)
    && (forall i :: 0 <= i < |seen| ==> seen[i] in m)
    && (forall k :: k in m ==> k in seen)
    && (forall i, j :: 0 <= i < j < |seen| ==> seen[i] != seen[j])
    && DistinctCounters(m)
    && forall k :: k in m ==>
         && m[k].username == k
         && m[k].role == RoleOf(cs, k)
         && m[k].customerCount == CountBy(cs, k)
  }

  /**
   * userDistributionMap.computeIfAbsent(username, k -> new UserDistribution(username, role, 0))
   * .incrementCount(): the creator's counter, created at zero when missing,
   * counts one more customer; every other counter is left as it was.
   */
  method CountCustomer(m: map<string, UserDistribution>, seen: seq<string>, ghost cs: seq<Customer>, c: Customer)
    returns (next: map<string, UserDistribution>, nextSeen: seq<string>)
    requires Tallies(m, seen, cs)
    modifies m.Values
    ensures Tallies(next, nextSeen, cs + [c])
    ensures forall k :: k in next ==> k in m || fresh(next[k])
    ensures forall k :: k in m ==> k in next && next[k] == m[k]
  {
    var username := c.createdBy.username;
    var role := RoleName(c.createdBy.role);
    CreatorsSnoc(cs, c);
    next, nextSeen := m, seen;
    if username !in next {
      CountPositive(cs, username);
      var created := new UserDistribution(username, role, 0);
      next := next[username := created];
      nextSeen := nextSeen + [username];
    }
    var counter := next[username];
    label Before:
    counter.IncrementCount();
    forall k | k in next
      ensures next[k].username == k
      ensures next[k].role == RoleOf(cs + [c], k)
      ensures next[k].customerCount == CountBy(cs + [c], k)
    {
      CountSnoc(cs, c, k);
      if k != username {
        assert next[k] != counter;
        assert next[k].customerCount == old@Before(next[k].customerCount);
      }
    }
  }

  /** Counts read off in the order of their names add up as the pairs do. */
  lemma {:induction false} RowsSum(rows: seq<DistributionRow>, names: seq<string>, ps: seq<(string, int)>)
    requires |rows| == |names|
    requires forall i :: 0 <= i < |rows| ==> rows[i].customerCount == SumFor(ps, names[i])
    ensures SumKey(rows, RowCount) == SumOverKeys(names, ps)
  {
    if rows != [] {
      RowsSum(rows[1..], names[1..], ps);
    }
  }

  /** A list without repeats has each of its elements once. */
  lemma {:induction false} NoRepeatsOnce<T>(s: seq<T>, x: T)
    requires forall i, j :: 0 <= i < j < |s| ==> s[i] != s[j]
    ensures multiset(s)[x] <= 1
  {
    if s != [] {
      NoRepeatsOnce(s[1..], x);
      assert s == [s[0]] + s[1..];
      if s[0] == x {
        assert x !in s[1..];
      }
    }
  }

  /** An element held at most once cannot sit at two positions. */
  lemma HeldOnce<T>(t: seq<T>, i: int, j: int)
    requires 0 <= i < j < |t| && multiset(t)[t[j]] <= 1
    ensures t[i] != t[j]
  {
    assert t == t[..j] + [t[j]] + t[j + 1..];
    assert multiset(t)[t[j]] == multiset(t[..j])[t[j]] + 1 + multiset(t[j + 1..])[t[j]];
    assert t[j] !in t[..j];
    assert t[i] == t[..j][i];
  }

  /** A permutation of a list without repeats has none either. */
  lemma NoRepeatsPermutation<T>(s: seq<T>, t: seq<T>)
    requires forall i, j :: 0 <= i < j < |s| ==> s[i] != s[j]
    requires multiset(t) == multiset(s)
    ensures forall i, j :: 0 <= i < j < |t| ==> t[i] != t[j]
  {
    forall i, j | 0 <= i < j < |t| ensures t[i] != t[j] {
      NoRepeatsOnce(s, t[j]);
      HeldOnce(t, i, j);
    }
  }

  /**
   * viewAllCustomers' distribution: one entry per creator username, holding
   * the role of that user and the number of customers they created (at
   * least one), the counts adding up to the number of customers, sorted by
   * count with the largest first.
   */
  method UserDistributionOf(customers: seq<Customer>) returns (dist: seq<DistributionRow>)
    ensures NonIncreasing(dist, RowCount)
    ensures forall i, j :: 0 <= i < j < |dist| ==> dist[i].username != dist[j].username
    ensures (set r | r in dist :: r.username) == Creators(customers)
    ensures forall r :: r in dist ==>
              && r.customerCount == CountBy(customers, r.username) >= 1
              && r.role == RoleOf(customers, r.username)
    ensures SumKey(dist, RowCount) == |customers|
  {
    var m, seen := TallyCustomers(customers);
    var rows := Snapshot(m, seen, customers);
    DistributionFacts(rows, seen, customers);
    SortedDistribution(rows, customers);
    dist := SortDescending(rows, RowCount);
  }

  /**
   * The counting loop of getUserDistribution: one new counter per creator
   * met for the first time, an incremented counter otherwise.
   */
  method TallyCustomers(customers: seq<Customer>) returns (m: map<string, UserDistribution>, seen: seq<string>)
    ensures Tallies(m, seen, customers)
    ensures forall k :: k in m ==> fresh(m[k])
  {
    m, seen := map[], [];
    var i := 0;
    while i < |customers|
      invariant 0 <= i <= |customers|
      invariant Tallies(m, seen, customers[..i])
      invariant forall k :: k in m ==> fresh(m[k])
    {
      assert customers[..i + 1] == customers[..i] + [customers[i]];
      m, seen := CountCustomer(m, seen, customers[..i], customers[i]);
      i := i + 1;
    }
    assert customers[..i] == customers;
  }

  /** userDistribution.sort by count, largest first, keeps what the rows satisfy and orders them. */
  lemma SortedDistribution(rows: seq<DistributionRow>, cs: seq<Customer>)
    requires forall i, j :: 0 <= i < j < |rows| ==> rows[i] != rows[j]
    requires (set r | r in rows :: r.username) == Creators(cs)
    requires forall r :: r in rows ==>
               && r.customerCount == CountBy(cs, r.username) >= 1
               && r.role == RoleOf(cs, r.username)
    requires SumKey(rows, RowCount) == |cs|
    ensures var dist := SortDescending(rows, RowCount);
            && NonIncreasing(dist, RowCount)
            && (forall i, j :: 0 <= i < j < |dist| ==> dist[i].username != dist[j].username)
            && (set r | r in dist :: r.username) == Creators(cs)
            && (forall r :: r in dist ==>
                  && r.customerCount == CountBy(cs, r.username) >= 1
                  && r.role == RoleOf(cs, r.username))
            && SumKey(dist, RowCount) == |cs|
  {
    var dist := SortDescending(rows, RowCount);
    SortDescendingSpec(rows, RowCount);
    NoRepeatsPermutation(rows, dist);
    forall r | r in dist ensures r in rows {
      assert r in multiset(rows);
    }
    forall r | r in rows ensures r in dist {
      assert r in multiset(dist);
    }
  }

  /** new ArrayList<>(userDistributionMap.values()): one row per counter, in the order of seen. */
  method Snapshot(m: map<string, UserDistribution>, seen: seq<string>, ghost cs: seq<Customer>)
    returns (rows: seq<DistributionRow>)
    requires Tallies(m, seen, cs)
    ensures |rows| == |seen|
    ensures forall i :: 0 <= i < |seen| ==> rows[i] == DistributionRow(seen[i], RoleOf(cs, seen[i]), CountBy(cs, seen[i]))
  {
    rows := [];
    var i := 0;
    while i < |seen|
      invariant 0 <= i <= |seen| && |rows| == i
      invariant forall j :: 0 <= j < i ==> rows[j] == DistributionRow(seen[j], RoleOf(cs, seen[j]), CountBy(cs, seen[j]))
    {
      var counter := m[seen[i]];
      rows := rows + [DistributionRow(counter.username, counter.role, counter.customerCount)];
      i := i + 1;
    }
  }

  /** What the unsorted rows already satisfy. */
  lemma DistributionFacts(rows: seq<DistributionRow>, seen: seq<string>, cs: seq<Customer>)
    requires |rows| == |seen|
    requires forall i, j :: 0 <= i < j < |seen| ==> seen[i] != seen[j]
    requires forall k :: k in seen <==> k in Creators(cs)
    requires forall i :: 0 <= i < |seen| ==> rows[i] == DistributionRow(seen[i], RoleOf(cs, seen[i]), CountBy(cs, seen[i]))
    ensures forall i, j :: 0 <= i < j < |rows| ==> rows[i] != rows[j]
    ensures (set r | r in rows :: r.username) == Creators(cs)
    ensures forall r :: r in rows ==>
              && r.customerCount == CountBy(cs, r.username) >= 1
              && r.role == RoleOf(cs, r.username)
    ensures SumKey(rows, RowCount) == |cs|
  {
    RowsDistinct(rows, seen, cs);
    RowsNameCreators(rows, seen, cs);
    RowsCountAndRole(rows, seen, cs);
    CreatorPairsFacts(cs);
    RowsSum(rows, seen, CreatorPairs(cs));
    SumOverKeysConserves(seen, CreatorPairs(cs));
  }

  /** Rows built from distinct names are distinct. */
  lemma RowsDistinct(rows: seq<DistributionRow>, seen: seq<string>, cs: seq<Customer>)
    requires |rows| == |seen|
    requires forall i, j :: 0 <= i < j < |seen| ==> seen[i] != seen[j]
    requires forall i :: 0 <= i < |seen| ==> rows[i] == DistributionRow(seen[i], RoleOf(cs, seen[i]), CountBy(cs, seen[i]))
    ensures forall i, j :: 0 <= i < j < |rows| ==> rows[i] != rows[j]
  {
    forall i, j | 0 <= i < j < |rows| ensures rows[i] != rows[j] {
      assert rows[i].username == seen[i] && rows[j].username == seen[j];
    }
  }

  /** The rows name exactly the creators. */
  lemma RowsNameCreators(rows: seq<DistributionRow>, seen: seq<string>, cs: seq<Customer>)
    requires |rows| == |seen|
    requires forall k :: k in seen <==> k in Creators(cs)
    requires forall i :: 0 <= i < |seen| ==> rows[i] == DistributionRow(seen[i], RoleOf(cs, seen[i]), CountBy(cs, seen[i]))
    ensures (set r | r in rows :: r.username) == Creators(cs)
  {
    forall k | k in Creators(cs) ensures k in (set r | r in rows :: r.username) {
      var i :| 0 <= i < |seen| && seen[i] == k;
      assert rows[i] in rows;
    }
    forall r | r in rows ensures r.username in Creators(cs) {
      var i :| 0 <= i < |rows| && rows[i] == r;
      assert seen[i] in seen;
    }
  }

  /** Each row carries its creator's count, at least one, and role. */
  lemma RowsCountAndRole(rows: seq<DistributionRow>, seen: seq<string>, cs: seq<Customer>)
    requires |rows| == |seen|
    requires forall k :: k in seen <==> k in Creators(cs)
    requires forall i :: 0 <= i < |seen| ==> rows[i] == DistributionRow(seen[i], RoleOf(cs, seen[i]), CountBy(cs, seen[i]))
    ensures forall r :: r in rows ==>
              && r.customerCount == CountBy(cs, r.username) >= 1
              && r.role == RoleOf(cs, r.username)
  {
    forall r | r in rows
      ensures r.customerCount == CountBy(cs, r.username) >= 1 && r.role == RoleOf(cs, r.username)
    {
      var i :| 0 <= i < |rows| && rows[i] == r;
      assert seen[i] in seen;
      CountPositive(cs, r.username);
    }
  }
}
