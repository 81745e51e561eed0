/**
 * The aggregate queries of InvoiceRepository, as functions over the stored
 * invoices: COALESCE(SUM(..), 0) totals per user, the per-user count, and
 * revenue grouped by month number and by date, ordered by the grouping key.
 * The ...All variants are the same queries without the user filter.
 */
module InvoiceRepository {

  import opened Money
  import opened Calendar
  import opened Model
  import opened GroupBy

  /** One stored invoice, reduced to the columns the queries use. */
  datatype InvoiceRow = InvoiceRow(id: int, ownerId: int, invoiceDate: Date,
                                   subtotal: Cents, totalGst: Cents, totalAmount: Cents)

  /** WHERE i.user = :user, keeping the stored order. */
  function ForUser(rows: seq<InvoiceRow>, user: User): (r: seq<InvoiceRow>)
    ensures forall x :: x in r <==> x in rows && x.ownerId == user.id
    ensures |r| <= |rows|
  {
    if rows == [] then []
    else
      var init := ForUser(rows[..|rows| - 1], user);
      var last := rows[|rows| - 1];
      assert rows == rows[..|rows| - 1] + [last];
      if last.ownerId == user.id then init + [last] else init
  }

  /** SUM(i.totalAmount), 0 for no rows. */
  function SumAmount(rows: seq<InvoiceRow>): Cents
  {
    if rows == [] then 0 else SumAmount(rows[..|rows| - 1]) + rows[|rows| - 1].totalAmount
  }

  /** SUM(i.totalGst), 0 for no rows. */
  function SumGst(rows: seq<InvoiceRow>): Cents
  {
    if rows == [] then 0 else SumGst(rows[..|rows| - 1]) + rows[|rows| - 1].totalGst
  }

  /** getTotalSalesByUser: the sum of the user's invoice totals, 0 when the user has none. */
  function TotalSalesByUser(rows: seq<InvoiceRow>, user: User): (t: Cents)
    ensures (forall x :: x in rows ==> x.ownerId != user.id) ==> t == 0
  {
    SumAmount(ForUser(rows, user))
  }

  /** getTotalGstByUser: the sum of the user's invoice GST, 0 when the user has none. */
  function TotalGstByUser(rows: seq<InvoiceRow>, user: User): (t: Cents)
    ensures (forall x :: x in rows ==> x.ownerId != user.id) ==> t == 0
  {
    SumGst(ForUser(rows, user))
  }

  /** countByUser: the number of the user's invoices. */
  function CountByUser(rows: seq<InvoiceRow>, user: User): (n: nat)
    ensures n <= |rows|
    ensures n == 0 <==> forall x :: x in rows ==> x.ownerId != user.id
  {
    var mine := ForUser(rows, user);
    assert mine != [] ==> mine[0] in mine;
    |mine|
  }

  /** The (grouping key, totalAmount) pair of every row, in row order. */
  function Pairs<K>(rows: seq<InvoiceRow>, key: InvoiceRow -> K): (ps: seq<(K, int)>)
    ensures |ps| == |rows|
    ensures forall i :: 0 <= i < |rows| ==> ps[i] == (key(rows[i]), rows[i].totalAmount)
  {
    if rows == [] then [] else Pairs(rows[..|rows| - 1], key) + [(key(rows[|rows| - 1]), rows[|rows| - 1].totalAmount)]
  }

  /** The rows whose grouping key is k. */
  function RowsWhere<K(==)>(rows: seq<InvoiceRow>, key: InvoiceRow -> K, k: K): seq<InvoiceRow>
  {
    if rows == [] then []
    else RowsWhere(rows[..|rows| - 1], key, k) + (if key(rows[|rows| - 1]) == k then [rows[|rows| - 1]] else [])
  }

  lemma {:induction false} PairsInit<K>(rows: seq<InvoiceRow>, key: InvoiceRow -> K)
    requires rows != []
    ensures Pairs(rows, key)[..|rows| - 1] == Pairs(rows[..|rows| - 1], key)
    ensures Pairs(rows, key)[|rows| - 1] == (key(rows[|rows| - 1]), rows[|rows| - 1].totalAmount)
  {
  }

  /** The grouped values add up to the rows' total amount. */
  lemma {:induction false} PairsTotal<K>(rows: seq<InvoiceRow>, key: InvoiceRow -> K)
    ensures Total(Pairs(rows, key)) == SumAmount(rows)
  {
    if rows != [] {
      PairsInit(rows, key);
      PairsTotal(rows[..|rows| - 1], key);
    }
  }

  /** The group of key k sums the total amount of exactly the rows with that key. */
  lemma {:induction false} PairsSumFor<K>(rows: seq<InvoiceRow>, key: InvoiceRow -> K, k: K)
    ensures SumFor(Pairs(rows, key), k) == SumAmount(RowsWhere(rows, key, k))
  {
    if rows != [] {
      var init := rows[..|rows| - 1];
      var last := rows[|rows| - 1];
      PairsInit(rows, key);
      PairsSumFor(init, key, k);
      var w := RowsWhere(init, key, k);
      if key(last) == k {
        assert (w + [last])[..|w|] == w;
      } else {
        assert w + [] == w;
      }
    }
  }

  /** The grouping keys are the keys of the rows. */
  lemma {:induction false} PairsKeys<K>(rows: seq<InvoiceRow>, key: InvoiceRow -> K)
    ensures Keys(Pairs(rows, key)) == set r | r in rows :: key(r)
  {
    var ps := Pairs(rows, key);
    forall x | x in Keys(ps) ensures x in set r | r in rows :: key(r) {
      var p :| p in ps && p.0 == x;
      var i :| 0 <= i < |ps| && ps[i] == p;
      assert rows[i] in rows;
    }
    forall x | x in set r | r in rows :: key(r) ensures x in Keys(ps) {
      var r :| r in rows && key(r) == x;
      var i :| 0 <= i < |rows| && rows[i] == r;
      assert ps[i] in ps;
    }
  }

  function MonthKey(r: InvoiceRow): MonthNumber
  {
    r.invoiceDate.month
  }

  function MonthRank(m: MonthNumber): int
  {
    m
  }

  function DateKey(r: InvoiceRow): Date
  {
    r.invoiceDate
  }

  lemma MonthRankInjective()
    ensures Injective(MonthRank)
  {
  }

  lemma {:induction false} DateRankInjective()
    ensures Injective(DateOrdinal)
  {
    forall a: Date, b: Date | DateOrdinal(a) == DateOrdinal(b) ensures a == b {
      DateOrdinalOrder(a, b);
    }
  }

  /** getMonthlyRevenueAll: SUM(totalAmount) GROUP BY MONTH(invoiceDate) ORDER BY MONTH(invoiceDate). */
  function MonthlyRevenueAll(rows: seq<InvoiceRow>): seq<Bucket<MonthNumber>>
  {
    Group(Pairs(rows, MonthKey), MonthRank)
  }

  /** The monthly rows of getMonthlyRevenueAll add up to the revenue of all invoices. */
  lemma MonthlyRevenueTotal(rows: seq<InvoiceRow>)
    ensures BucketTotal(MonthlyRevenueAll(rows)) == SumAmount(rows)
  {
    MonthlyRevenueSpec(rows);
  }

  /** getMonthlyRevenue: the monthly grouping of one user's invoices. */
  function MonthlyRevenue(rows: seq<InvoiceRow>, user: User): seq<Bucket<MonthNumber>>
  {
    MonthlyRevenueAll(ForUser(rows, user))
  }

  /** getDailyRevenueAll: SUM(totalAmount) GROUP BY DATE(invoiceDate) ORDER BY DATE(invoiceDate). */
  function DailyRevenueAll(rows: seq<InvoiceRow>): seq<Bucket<Date>>
  {
    Group(Pairs(rows, DateKey), DateOrdinal)
  }

  /** getDailyRevenue: the daily grouping of one user's invoices. */
  function DailyRevenue(rows: seq<InvoiceRow>, user: User): seq<Bucket<Date>>
  {
    DailyRevenueAll(ForUser(rows, user))
  }

  /**
   * Monthly revenue has one row per month number occurring among the
   * invoices, strictly ascending by month; each row holds the total amount of
   * that month's invoices (of every year), the rows add up to the total
   * sales, and there are no rows exactly when there are no invoices.
   */
  lemma {:induction false} MonthlyRevenueSpec(rows: seq<InvoiceRow>)
    ensures var g := MonthlyRevenueAll(rows);
            && (forall i, j :: 0 <= i < j < |g| ==> g[i].key < g[j].key)
            && BucketKeys(g) == (set r | r in rows :: r.invoiceDate.month)
            && (forall i :: 0 <= i < |g| ==> g[i].total == SumAmount(RowsWhere(rows, MonthKey, g[i].key)))
            && BucketTotal(g) == SumAmount(rows)
            && (g == [] <==> rows == [])
  {
    var ps := Pairs(rows, MonthKey);
    MonthRankInjective();
    GroupSpec(ps, MonthRank);
    GroupEntries(ps, MonthRank);
    GroupEmpty(ps, MonthRank);
    PairsTotal(rows, MonthKey);
    PairsKeys(rows, MonthKey);
    var g := MonthlyRevenueAll(rows);
    forall i | 0 <= i < |g| ensures g[i].total == SumAmount(RowsWhere(rows, MonthKey, g[i].key)) {
      PairsSumFor(rows, MonthKey, g[i].key);
    }
  }

  /**
   * Daily revenue has one row per invoice date, strictly ascending by date;
   * each row holds that day's total amount, the rows add up to the total
   * sales, and there are no rows exactly when there are no invoices.
   */
  lemma {:induction false} DailyRevenueSpec(rows: seq<InvoiceRow>)
    ensures var g := DailyRevenueAll(rows);
            && (forall i, j :: 0 <= i < j < |g| ==> Before(g[i].key, g[j].key))
            && BucketKeys(g) == (set r | r in rows :: r.invoiceDate)
            && (forall i :: 0 <= i < |g| ==> g[i].total == SumAmount(RowsWhere(rows, DateKey, g[i].key)))
            && BucketTotal(g) == SumAmount(rows)
            && (g == [] <==> rows == [])
  {
    var ps := Pairs(rows, DateKey);
    DateRankInjective();
    GroupSpec(ps, DateOrdinal);
    GroupEntries(ps, DateOrdinal);
    GroupEmpty(ps, DateOrdinal);
    PairsTotal(rows, DateKey);
    PairsKeys(rows, DateKey);
    var g := DailyRevenueAll(rows);
    forall i, j | 0 <= i < j < |g| ensures Before(g[i].key, g[j].key) {
      DateOrdinalOrder(g[i].key, g[j].key);
    }
    forall i | 0 <= i < |g| ensures g[i].total == SumAmount(RowsWhere(rows, DateKey, g[i].key)) {
      PairsSumFor(rows, DateKey, g[i].key);
    }
  }

  /** For one user, the monthly and the daily rows each add up to getTotalSalesByUser. */
  lemma {:induction false} RevenueMatchesTotalSales(rows: seq<InvoiceRow>, user: User)
    ensures BucketTotal(MonthlyRevenue(rows, user)) == TotalSalesByUser(rows, user)
    ensures BucketTotal(DailyRevenue(rows, user)) == TotalSalesByUser(rows, user)
  {
    MonthlyRevenueSpec(ForUser(rows, user));
    DailyRevenueSpec(ForUser(rows, user));
  }

  /**
   * Grouping by the month number alone merges the same month of different
   * years: January 2024 and January 2025 come back as one JANUARY row.
   */
  lemma MonthlyRevenueMergesYears()
    ensures MonthlyRevenueAll([InvoiceRow(1, 7, Date(2024, 1, 15), 10000, 1800, 11800),
                               InvoiceRow(2, 7, Date(2025, 1, 3), 5000, 900, 5900)])
            == [Bucket(1, 17700)]
  {
    var rows := [InvoiceRow(1, 7, Date(2024, 1, 15), 10000, 1800, 11800),
                 InvoiceRow(2, 7, Date(2025, 1, 3), 5000, 900, 5900)];
    assert rows[..1] == [rows[0]];
    var ps: seq<(MonthNumber, int)> := [(1, 11800), (1, 5900)];
    assert Pairs(rows, MonthKey) == ps;
    assert ps[..1] == [(1, 11800)];
    assert [(1, 11800)][..0] == [];
    assert Group(ps[..1], MonthRank) == [Bucket(1, 11800)];
  }
}
