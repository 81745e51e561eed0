/**
 * DashboardService: the chart series of the home dashboard.  Each method
 * reads the grouped revenue query, the query over every invoice for an
 * admin and over the signed-in user's invoices otherwise, and copies one
 * column of its rows into a list: full month names or ISO dates as labels,
 * totals as values.
 */
module DashboardService {

  import opened Money
  import opened Calendar
  import opened Model
  import opened GroupBy
  import opened InvoiceRepository

  /**
   * getMonthLabels: one full upper-case month name per row of the monthly
   * query the role selects, in row order, so the months ascend without
   * repeats.
   */
  method MonthLabels(rows: seq<InvoiceRow>, user: User, isAdmin: bool) returns (labels: seq<string>)
    ensures var data := if isAdmin then MonthlyRevenueAll(rows) else MonthlyRevenue(rows, user);
            && |labels| == |data|
            && forall i :: 0 <= i < |data| ==> labels[i] == MonthName(data[i].key)
    ensures forall i, j :: 0 <= i < j < |labels| ==> MonthOfName(labels[i]) < MonthOfName(labels[j])
  {
    var results: seq<Bucket<MonthNumber>>;
    if isAdmin {
      results := MonthlyRevenueAll(rows);
    } else {
      results := MonthlyRevenue(rows, user);
    }
    labels := RowLabels(results, MonthName);
    if isAdmin {
      MonthsAscend(rows);
    } else {
      MonthsAscend(ForUser(rows, user));
    }
    MonthNamesAscend(results, labels);
  }

  /** The monthly query lists its months in ascending order. */
  lemma MonthsAscend(rows: seq<InvoiceRow>)
    ensures var data := MonthlyRevenueAll(rows);
            forall i, j :: 0 <= i < j < |data| ==> data[i].key < data[j].key
  {
    MonthlyRevenueSpec(rows);
  }

  /** Full names of ascending months name ascending months. */
  lemma MonthNamesAscend(data: seq<Bucket<MonthNumber>>, labels: seq<string>)
    requires forall i, j :: 0 <= i < j < |data| ==> data[i].key < data[j].key
    requires |labels| == |data| && forall i :: 0 <= i < |data| ==> labels[i] == MonthName(data[i].key)
    ensures forall i, j :: 0 <= i < j < |labels| ==> MonthOfName(labels[i]) < MonthOfName(labels[j])
  {
    forall i, j | 0 <= i < j < |labels| ensures MonthOfName(labels[i]) < MonthOfName(labels[j]) {
      MonthNamesRoundTrip(data[i].key);
      MonthNamesRoundTrip(data[j].key);
    }
  }

  /**
   * getMonthRevenue: the total of each row of the same query, in row order,
   * so as many values as getMonthLabels has labels; they add up to the
   * revenue of all invoices for an admin and to getTotalSalesByUser for a
   * user.
   */
  method MonthRevenue(rows: seq<InvoiceRow>, user: User, isAdmin: bool) returns (revenue: seq<Cents>)
    ensures var data := if isAdmin then MonthlyRevenueAll(rows) else MonthlyRevenue(rows, user);
            && |revenue| == |data|
            && forall i :: 0 <= i < |data| ==> revenue[i] == data[i].total
    ensures SumValues(revenue) == if isAdmin then SumAmount(rows) else TotalSalesByUser(rows, user)
  {
    var results: seq<Bucket<MonthNumber>>;
    if isAdmin {
      results := MonthlyRevenueAll(rows);
    } else {
      results := MonthlyRevenue(rows, user);
    }
    revenue := [];
    var i := 0;
    while i < |results|
      invariant 0 <= i <= |results| && |revenue| == i
      invariant forall j :: 0 <= j < i ==> revenue[j] == results[j].total
    {
      revenue := revenue + [results[i].total];
      i := i + 1;
    }
    MonthlyRevenueSpec(if isAdmin then rows else ForUser(rows, user));
    ValuesOfBuckets(revenue, results);
  }

  /**
   * getDayLabels: the ISO form yyyy-MM-dd of each row's date, in row order:
   * label i names a date strictly before the date of every later label, and
   * no label repeats.
   */
  method DayLabels(rows: seq<InvoiceRow>, user: User, isAdmin: bool) returns (labels: seq<string>)
    ensures var data := if isAdmin then DailyRevenueAll(rows) else DailyRevenue(rows, user);
            && |labels| == |data|
            && (forall i :: 0 <= i < |data| ==> labels[i] == IsoDate(data[i].key))
            && (forall i, j :: 0 <= i < j < |data| ==> Before(data[i].key, data[j].key))
    ensures forall i, j :: 0 <= i < j < |labels| ==> labels[i] != labels[j]
  {
    var results: seq<Bucket<Date>>;
    if isAdmin {
      results := DailyRevenueAll(rows);
    } else {
      results := DailyRevenue(rows, user);
    }
    labels := RowLabels(results, IsoDate);
    if isAdmin {
      DatesAscend(rows);
    } else {
      DatesAscend(ForUser(rows, user));
    }
    IsoDatesDistinct(results, labels);
  }

  /** The daily query lists its dates in ascending order. */
  lemma DatesAscend(rows: seq<InvoiceRow>)
    ensures var data := DailyRevenueAll(rows);
            forall i, j :: 0 <= i < j < |data| ==> Before(data[i].key, data[j].key)
  {
    DailyRevenueSpec(rows);
  }

  /** ISO labels of ascending dates do not repeat. */
  lemma IsoDatesDistinct(data: seq<Bucket<Date>>, labels: seq<string>)
    requires forall i, j :: 0 <= i < j < |data| ==> Before(data[i].key, data[j].key)
    requires |labels| == |data| && forall i :: 0 <= i < |data| ==> labels[i] == IsoDate(data[i].key)
    ensures forall i, j :: 0 <= i < j < |labels| ==> labels[i] != labels[j]
  {
    forall i, j | 0 <= i < j < |labels| ensures labels[i] != labels[j] {
      IsoDateInjective(data[i].key, data[j].key);
      DateOrdinalOrder(data[i].key, data[j].key);
    }
  }

  /**
   * getDayRevenue: the total of each row of the daily query, in row order;
   * the values add up as the monthly ones do.
   */
  method DayRevenue(rows: seq<InvoiceRow>, user: User, isAdmin: bool) returns (revenue: seq<Cents>)
    ensures var data := if isAdmin then DailyRevenueAll(rows) else DailyRevenue(rows, user);
            && |revenue| == |data|
            && forall i :: 0 <= i < |data| ==> revenue[i] == data[i].total
    ensures SumValues(revenue) == if isAdmin then SumAmount(rows) else TotalSalesByUser(rows, user)
  {
    var results: seq<Bucket<Date>>;
    if isAdmin {
      results := DailyRevenueAll(rows);
    } else {
      results := DailyRevenue(rows, user);
    }
    revenue := [];
    var i := 0;
    while i < |results|
      invariant 0 <= i <= |results| && |revenue| == i
      invariant forall j :: 0 <= j < i ==> revenue[j] == results[j].total
    {
      revenue := revenue + [results[i].total];
      i := i + 1;
    }
    DailyRevenueSpec(if isAdmin then rows else ForUser(rows, user));
    ValuesOfBuckets(revenue, results);
  }

  /** The user filter keeps every invoice when the user owns them all. */
  lemma {:induction false} ForUserAll(rows: seq<InvoiceRow>, user: User)
    requires forall r :: r in rows ==> r.ownerId == user.id
    ensures ForUser(rows, user) == rows
  {
    if rows != [] {
      var init := rows[..|rows| - 1];
      assert rows == init + [rows[|rows| - 1]];
      ForUserAll(init, user);
    }
  }

  /**
   * A user who owns every invoice sees the same charts whether or not they
   * are an admin: the per-user queries then return what the all-users
   * queries return.
   */
  lemma OwnerSeesAdminCharts(rows: seq<InvoiceRow>, user: User)
    requires forall r :: r in rows ==> r.ownerId == user.id
    ensures MonthlyRevenue(rows, user) == MonthlyRevenueAll(rows)
    ensures DailyRevenue(rows, user) == DailyRevenueAll(rows)
  {
    ForUserAll(rows, user);
  }

  /** One label per row, in row order: the loop of getMonthLabels and getDayLabels. */
  method RowLabels<K>(results: seq<Bucket<K>>, name: K -> string) returns (labels: seq<string>)
    ensures |labels| == |results|
    ensures forall i :: 0 <= i < |results| ==> labels[i] == name(results[i].key)
  {
    labels := [];
    var i := 0;
    while i < |results|
      invariant 0 <= i <= |results| && |labels| == i
      invariant forall j :: 0 <= j < i ==> labels[j] == name(results[j].key)
    {
      labels := labels + [name(results[i].key)];
      i := i + 1;
    }
  }
}
