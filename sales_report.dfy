/**
 * Sales-report aggregation. The report query results arrive as inputs:
 * bills in the selected range (amount, item count, day and month of
 * creation), category revenue rows and the barcode-items revenue. Days and
 * months are numbers whose order is the order of their "YYYY-MM-DD" and
 * "YYYY-MM" keys; the calendar conversions are parameters.
 */
module SalesReport {
  import opened Wrappers

  datatype ReportBill = ReportBill(totalAmount: real, totalItems: int, day: int, month: int)

  function DayOf(b: ReportBill): int { b.day }
  function MonthOf(b: ReportBill): int { b.month }

  function Revenue(bills: seq<ReportBill>): real
  {
    if bills == [] then 0.0 else Revenue(bills[..|bills| - 1]) + bills[|bills| - 1].totalAmount
  }

  function ItemCount(bills: seq<ReportBill>): int
  {
    if bills == [] then 0 else ItemCount(bills[..|bills| - 1]) + bills[|bills| - 1].totalItems
  }

  // ---------------------------------------------------------------- summary

  datatype Summary = Summary(totalRevenue: real, totalBills: nat, totalItems: int, avgBillValue: real)

  /** What the four summary labels show when the range has no bills. */
  const EmptySummary := Summary(0.0, 0, 0, 0.0)

  /** Revenue, bill count, item count and average bill value of a range. */
  function Summarize(bills: seq<ReportBill>): (s: Summary)
    ensures s.totalBills == |bills| && s.totalRevenue == Revenue(bills) && s.totalItems == ItemCount(bills)
    ensures s.totalBills > 0 ==> s.avgBillValue * (s.totalBills as real) == s.totalRevenue
    ensures bills == [] ==> s == EmptySummary
  {
    var revenue := Revenue(bills);
    Summary(revenue, |bills|, ItemCount(bills), if |bills| > 0 then revenue / (|bills| as real) else 0.0)
  }

  /** When every bill lies in [lo, hi], so does the revenue divided by the count. */
  lemma {:induction false} RevenueBounds(bills: seq<ReportBill>, lo: real, hi: real)
    requires forall i :: 0 <= i < |bills| ==> lo <= bills[i].totalAmount <= hi
    ensures (|bills| as real) * lo <= Revenue(bills) <= (|bills| as real) * hi
  {
    if bills != [] {
      RevenueBounds(bills[..|bills| - 1], lo, hi);
    }
  }

  lemma AverageBounds(bills: seq<ReportBill>, lo: real, hi: real)
    requires bills != []
    requires forall i :: 0 <= i < |bills| ==> lo <= bills[i].totalAmount <= hi
    ensures lo <= Summarize(bills).avgBillValue <= hi
  {
    RevenueBounds(bills, lo, hi);
    var n := |bills| as real;
    var avg := Summarize(bills).avgBillValue;
    assert n * avg == Revenue(bills);
    ScaleCancels(n, lo, avg);
    ScaleCancels(n, avg, hi);
  }

  /** A positive factor can be cancelled from both sides of a comparison. */
  lemma ScaleCancels(n: real, a: real, b: real)
    requires n > 0.0 && n * a <= n * b
    ensures a <= b
  {
    assert n * (b - a) == n * b - n * a;
    assert b - a == (n * b - n * a) / n;
  }

  // -------------------------------------------------------------- grouping

  /** The keys (days or months) that occur among the bills. */
  function KeySet(bills: seq<ReportBill>, keyOf: ReportBill -> int): set<int>
  {
    if bills == [] then {} else KeySet(bills[..|bills| - 1], keyOf) + {keyOf(bills[|bills| - 1])}
  }

  /** The revenue of the bills whose key is k. */
  function KeySum(bills: seq<ReportBill>, k: int, keyOf: ReportBill -> int): real
  {
    if bills == [] then 0.0
    else
      var last := bills[|bills| - 1];
      KeySum(bills[..|bills| - 1], k, keyOf) + (if keyOf(last) == k then last.totalAmount else 0.0)
  }

  /** A key with no bills has revenue 0. */
  lemma {:induction false} KeySumOutside(bills: seq<ReportBill>, k: int, keyOf: ReportBill -> int)
    requires k !in KeySet(bills, keyOf)
    ensures KeySum(bills, k, keyOf) == 0.0
  {
    if bills != [] {
      KeySumOutside(bills[..|bills| - 1], k, keyOf);
    }
  }

  /** The dictionary-accumulating loop: one entry per key, holding that key's revenue. */
  method GroupSum(bills: seq<ReportBill>, keyOf: ReportBill -> int) returns (sums: map<int, real>)
    ensures sums.Keys == KeySet(bills, keyOf)
    ensures forall k :: k in sums ==> sums[k] == KeySum(bills, k, keyOf)
  {
    sums := map[];
    for i := 0 to |bills|
      invariant sums.Keys == KeySet(bills[..i], keyOf)
      invariant forall k :: k in sums ==> sums[k] == KeySum(bills[..i], k, keyOf)
    {
      var b := bills[i];
      assert bills[..i + 1][..i] == bills[..i];
      var key := keyOf(b);
      if key in sums {
        sums := sums[key := sums[key] + b.totalAmount];
      } else {
        KeySumOutside(bills[..i], key, keyOf);
        sums := sums[key := b.totalAmount];
      }
    }
    assert bills[..|bills|] == bills;
  }

  // ----------------------------------------------------------- daily trend

  datatype Entry = Entry(key: int, amount: real)

  /** Every day from lo to hi inclusive. */
  function Range(lo: int, hi: int): (r: set<int>)
    ensures forall d :: d in r <==> lo <= d <= hi
    decreases hi - lo
  {
    if hi < lo then {} else Range(lo, hi - 1) + {hi}
  }

  /** Adds every day of the range that has no sales, with amount 0. */
  method FillRange(sums: map<int, real>, startDate: int, endDate: int) returns (filled: map<int, real>)
    ensures filled.Keys == sums.Keys + Range(startDate, endDate)
    ensures forall k :: k in sums ==> filled[k] == sums[k]
    ensures forall k :: k in filled && k !in sums ==> filled[k] == 0.0
  {
    filled := sums;
    var current := startDate;
    while current <= endDate
      invariant startDate <= current
      invariant startDate <= endDate ==> current <= endDate + 1
      invariant startDate > endDate ==> current == startDate
      invariant filled.Keys == sums.Keys + Range(startDate, current - 1)
      invariant forall k :: k in sums ==> filled[k] == sums[k]
      invariant forall k :: k in filled && k !in sums ==> filled[k] == 0.0
      decreases endDate - current
    {
      if current !in filled {
        filled := filled[current := 0.0];
      }
      assert Range(startDate, current) == Range(startDate, current - 1) + {current};
      current := current + 1;
    }
    assert Range(startDate, current - 1) == Range(startDate, endDate);
  }

  predicate Ascending(es: seq<Entry>)
  {
    forall i, j :: 0 <= i < j < |es| ==> es[i].key < es[j].key
  }

  function KeysOf(es: seq<Entry>): set<int>
  {
    set i | 0 <= i < |es| :: es[i].key
  }

  lemma KeysOfAppend(es: seq<Entry>, e: Entry)
    ensures KeysOf(es + [e]) == KeysOf(es) + {e.key}
  {
    var s := es + [e];
    assert s[|es|].key == e.key;
    forall k | k in KeysOf(es) ensures k in KeysOf(s) {
      var i :| 0 <= i < |es| && es[i].key == k;
      assert s[i] == es[i];
    }
  }

  /** Every finite, non-empty set of numbers has a least element. */
  lemma {:induction false} MinExists(s: set<int>)
    requires s != {}
    ensures exists k :: k in s && forall j :: j in s ==> k <= j
  {
    if forall k :: k !in s {
      assert false;
    }
    var x :| x in s;
    var rest := s - {x};
    assert forall j :: j in s ==> j == x || j in rest;
    if rest != {} {
      MinExists(rest);
      var m :| m in rest && forall j :: j in rest ==> m <= j;
      var least := if x < m then x else m;
      forall j | j in s ensures least <= j {
        if j != x {
          assert j in rest;
        }
      }
    }
  }

  /** An entry above the last one keeps a sequence ascending. */
  lemma AscendingSnoc(es: seq<Entry>, e: Entry)
    requires Ascending(es)
    requires es != [] ==> es[|es| - 1].key < e.key
    ensures Ascending(es + [e])
  {
    var s := es + [e];
    forall i, j | 0 <= i < j < |s| ensures s[i].key < s[j].key {
      if j == |es| && i < |es| - 1 {
        assert s[i].key < es[|es| - 1].key;
      }
    }
  }

  /** The items of a map in ascending key order. */
  method SortedEntries(m: map<int, real>) returns (es: seq<Entry>)
    ensures Ascending(es)
    ensures KeysOf(es) == m.Keys
    ensures forall i :: 0 <= i < |es| ==> es[i].key in m && es[i].amount == m[es[i].key]
  {
    es := [];
    var rest := m.Keys;
    while rest != {}
      invariant rest <= m.Keys
      invariant KeysOf(es) + rest == m.Keys
      invariant Ascending(es)
      invariant es != [] ==> forall k :: k in rest ==> es[|es| - 1].key < k
      invariant forall i :: 0 <= i < |es| ==> es[i].key in m && es[i].amount == m[es[i].key]
      decreases rest
    {
      MinExists(rest);
      var k :| k in rest && forall j :: j in rest ==> k <= j;
      AscendingSnoc(es, Entry(k, m[k]));
      KeysOfAppend(es, Entry(k, m[k]));
      es := es + [Entry(k, m[k])];
      rest := rest - {k};
    }
  }

  function EntryTotal(es: seq<Entry>): real
  {
    if es == [] then 0.0 else EntryTotal(es[..|es| - 1]) + es[|es| - 1].amount
  }

  /**
   * Daily sales trend: one entry per day that has bills or lies in the
   * selected range, in ascending order, each holding that day's revenue;
   * together they add up to the revenue of the bills.
   */
  method DailyTrend(bills: seq<ReportBill>, startDate: int, endDate: int) returns (trend: seq<Entry>)
    ensures Ascending(trend)
    ensures KeysOf(trend) == KeySet(bills, DayOf) + Range(startDate, endDate)
    ensures forall i :: 0 <= i < |trend| ==> trend[i].amount == KeySum(bills, trend[i].key, DayOf)
    ensures EntryTotal(trend) == Revenue(bills)
  {
    var daily := GroupSum(bills, DayOf);
    var filled := FillRange(daily, startDate, endDate);
    forall k | k in filled
      ensures filled[k] == KeySum(bills, k, DayOf)
    {
      if k !in daily {
        KeySumOutside(bills, k, DayOf);
      }
    }
    trend := SortedEntries(filled);
    TrendTotal(trend, bills, DayOf);
  }

  // ----------------------------------------------- trend total = revenue

  /** The revenue of each entry's key, added up over the entries. */
  function KeyTotal(es: seq<Entry>, bills: seq<ReportBill>, keyOf: ReportBill -> int): real
  {
    if es == [] then 0.0
    else KeyTotal(es[..|es| - 1], bills, keyOf) + KeySum(bills, es[|es| - 1].key, keyOf)
  }

  /** How many entries carry key k. */
  function Hits(es: seq<Entry>, k: int): real
  {
    if es == [] then 0.0 else Hits(es[..|es| - 1], k) + (if es[|es| - 1].key == k then 1.0 else 0.0)
  }

  lemma {:induction false} EntryTotalIsKeyTotal(es: seq<Entry>, bills: seq<ReportBill>, keyOf: ReportBill -> int)
    requires forall i :: 0 <= i < |es| ==> es[i].amount == KeySum(bills, es[i].key, keyOf)
    ensures EntryTotal(es) == KeyTotal(es, bills, keyOf)
  {
    if es != [] {
      EntryTotalIsKeyTotal(es[..|es| - 1], bills, keyOf);
    }
  }

  lemma {:induction false} KeyTotalNoBills(es: seq<Entry>, keyOf: ReportBill -> int)
    ensures KeyTotal(es, [], keyOf) == 0.0
  {
    if es != [] {
      KeyTotalNoBills(es[..|es| - 1], keyOf);
    }
  }

  lemma {:induction false} KeyTotalSnoc(es: seq<Entry>, bills: seq<ReportBill>, b: ReportBill, keyOf: ReportBill -> int)
    ensures KeyTotal(es, bills + [b], keyOf) == KeyTotal(es, bills, keyOf) + b.totalAmount * Hits(es, keyOf(b))
  {
    assert (bills + [b])[..|bills|] == bills;
    if es != [] {
      var init := es[..|es| - 1];
      KeyTotalSnoc(init, bills, b, keyOf);
      var h := Hits(init, keyOf(b));
      var one := if es[|es| - 1].key == keyOf(b) then 1.0 else 0.0;
      assert b.totalAmount * (h + one) == b.totalAmount * h + b.totalAmount * one;
    }
  }

  lemma {:induction false} HitsOutside(es: seq<Entry>, k: int)
    requires k !in KeysOf(es)
    ensures Hits(es, k) == 0.0
  {
    if es != [] {
      var init := es[..|es| - 1];
      assert es[|es| - 1].key in KeysOf(es);
      forall x | x in KeysOf(init) ensures x in KeysOf(es) {
        var i :| 0 <= i < |init| && init[i].key == x;
        assert es[i] == init[i];
      }
      HitsOutside(init, k);
    }
  }

  lemma {:induction false} HitsOnce(es: seq<Entry>, k: int)
    requires Ascending(es) && k in KeysOf(es)
    ensures Hits(es, k) == 1.0
  {
    var init := es[..|es| - 1];
    var i :| 0 <= i < |es| && es[i].key == k;
    if es[|es| - 1].key == k {
      assert k !in KeysOf(init);
      HitsOutside(init, k);
    } else {
      assert init[i].key == k;
      HitsOnce(init, k);
    }
  }

  lemma {:induction false} KeyTotalIsRevenue(es: seq<Entry>, bills: seq<ReportBill>, keyOf: ReportBill -> int)
    requires Ascending(es) && KeySet(bills, keyOf) <= KeysOf(es)
    ensures KeyTotal(es, bills, keyOf) == Revenue(bills)
  {
    if bills == [] {
      KeyTotalNoBills(es, keyOf);
    } else {
      var init := bills[..|bills| - 1];
      var b := bills[|bills| - 1];
      assert bills == init + [b];
      KeyTotalIsRevenue(es, init, keyOf);
      KeyTotalSnoc(es, init, b, keyOf);
      HitsOnce(es, keyOf(b));
    }
  }

  /** Entries with distinct keys covering every bill's key, each holding its key's revenue, add up to the revenue. */
  lemma TrendTotal(es: seq<Entry>, bills: seq<ReportBill>, keyOf: ReportBill -> int)
    requires Ascending(es) && KeySet(bills, keyOf) <= KeysOf(es)
    requires forall i :: 0 <= i < |es| ==> es[i].amount == KeySum(bills, es[i].key, keyOf)
    ensures EntryTotal(es) == Revenue(bills)
  {
    EntryTotalIsKeyTotal(es, bills, keyOf);
    KeyTotalIsRevenue(es, bills, keyOf);
  }

  // ---------------------------------------------------- monthly comparison

  /**
   * Calendar conversions: the month of a day, the first day of a month and
   * the "%b %Y" label of a month.
   */
  datatype Calendar = Calendar(monthOfDay: int -> int, firstDayOf: int -> int, monthLabel: int -> string)

  datatype Bar = Bar(name: string, value: real)

  /** The latest month among the bills. */
  function MaxMonth(bills: seq<ReportBill>): (m: int)
    requires bills != []
    ensures m in KeySet(bills, MonthOf)
    ensures forall k :: k in KeySet(bills, MonthOf) ==> k <= m
  {
    var last := bills[|bills| - 1].month;
    if |bills| == 1 then last
    else
      var earlier := MaxMonth(bills[..|bills| - 1]);
      if earlier < last then last else earlier
  }

  /** The day the twelve months are counted back from: the first day of the latest month, or today. */
  function LatestDay(bills: seq<ReportBill>, today: int, cal: Calendar): int
  {
    if bills == [] then today else cal.firstDayOf(MaxMonth(bills))
  }

  /** The month 30 * i days before the latest day. */
  function MonthBack(bills: seq<ReportBill>, today: int, cal: Calendar, i: int): int
  {
    cal.monthOfDay(LatestDay(bills, today, cal) - 30 * i)
  }

  /** The latest key of the monthly totals, if there are any. */
  method NewestMonth(bills: seq<ReportBill>, monthly: map<int, real>) returns (newest: Option<int>)
    requires monthly.Keys == KeySet(bills, MonthOf)
    ensures newest.None? <==> bills == []
    ensures bills != [] ==> newest == Some(MaxMonth(bills))
  {
    if monthly == map[] {
      assert bills != [] ==> MaxMonth(bills) in monthly;
      return None;
    }
    assert bills != [];
    var m := MaxMonth(bills);
    assert m in monthly && forall k :: k in monthly ==> k <= m;
    var latest :| latest in monthly && forall k :: k in monthly ==> k <= latest;
    assert latest == m;
    return Some(latest);
  }

  /** The twelve months counted back from a day in steps of 30 days, oldest first. */
  method BackMonths(latestDay: int, cal: Calendar) returns (months: seq<int>)
    ensures |months| == 12
    ensures forall j :: 0 <= j < 12 ==> months[j] == cal.monthOfDay(latestDay - 30 * (11 - j))
  {
    months := [];
    var i := 11;
    while i >= 0
      invariant -1 <= i <= 11
      invariant |months| == 11 - i
      invariant forall j :: 0 <= j < |months| ==> months[j] == cal.monthOfDay(latestDay - 30 * (11 - j))
    {
      months := months + [cal.monthOfDay(latestDay - 30 * i)];
      i := i - 1;
    }
  }

  /** One bar per month, holding the month's revenue or 0 when it has none. */
  method MonthBars(bills: seq<ReportBill>, monthly: map<int, real>, months: seq<int>, cal: Calendar) returns (data: seq<Bar>)
    requires monthly.Keys == KeySet(bills, MonthOf)
    requires forall k :: k in monthly ==> monthly[k] == KeySum(bills, k, MonthOf)
    ensures |data| == |months|
    ensures forall t :: 0 <= t < |months| ==> data[t] == Bar(cal.monthLabel(months[t]), KeySum(bills, months[t], MonthOf))
  {
    data := [];
    for j := 0 to |months|
      invariant |data| == j
      invariant forall t :: 0 <= t < j ==> data[t] == Bar(cal.monthLabel(months[t]), KeySum(bills, months[t], MonthOf))
    {
      var key := months[j];
      if key !in monthly {
        KeySumOutside(bills, key, MonthOf);
      }
      var value := if key in monthly then monthly[key] else 0.0;
      data := data + [Bar(cal.monthLabel(key), value)];
    }
  }

  /**
   * Always twelve bars, counted back from the latest month in steps of 30
   * days, each with that month's revenue (0 for a month with no sales).
   */
  method MonthlyComparison(bills: seq<ReportBill>, today: int, cal: Calendar) returns (data: seq<Bar>)
    ensures |data| == 12
    ensures forall j :: 0 <= j < 12 ==>
      data[j] == Bar(cal.monthLabel(MonthBack(bills, today, cal, 11 - j)),
                     KeySum(bills, MonthBack(bills, today, cal, 11 - j), MonthOf))
  {
    var monthly := GroupSum(bills, MonthOf);
    var newest := NewestMonth(bills, monthly);
    var latestDay := if newest.Some? then cal.firstDayOf(newest.value) else today;
    assert latestDay == LatestDay(bills, today, cal);
    var months := BackMonths(latestDay, cal);
    data := MonthBars(bills, monthly, months, cal);
    forall j | 0 <= j < 12
      ensures data[j] == Bar(cal.monthLabel(MonthBack(bills, today, cal, 11 - j)),
                             KeySum(bills, MonthBack(bills, today, cal, 11 - j), MonthOf))
    {
      assert months[j] == cal.monthOfDay(latestDay - 30 * (11 - j));
    }
  }

  /** With a calendar whose months never go backwards, the bars run oldest to newest. */
  lemma MonthsOldestFirst(bills: seq<ReportBill>, today: int, cal: Calendar, j1: int, j2: int)
    requires forall a, b :: a <= b ==> cal.monthOfDay(a) <= cal.monthOfDay(b)
    requires 0 <= j1 <= j2 < 12
    ensures MonthBack(bills, today, cal, 11 - j1) <= MonthBack(bills, today, cal, 11 - j2)
  {
    var d := LatestDay(bills, today, cal);
    assert d - 30 * (11 - j1) <= d - 30 * (11 - j2);
  }

  /** Month k holds exactly the days from its first day up to the next month's first day. */
  ghost predicate MonthsPartitionDays(cal: Calendar)
  {
    forall d, k :: cal.firstDayOf(k) <= d < cal.firstDayOf(k + 1) ==> cal.monthOfDay(d) == k
  }

  /**
   * The 30-day steps skip a month: when the latest month follows a 28-day
   * month that follows a 31-day month (March after February and January in
   * a common year), the month before the latest gets no bar at all.
   */
  lemma ThirtyDayStepsSkipMonth(bills: seq<ReportBill>, today: int, cal: Calendar, m: int)
    requires MonthsPartitionDays(cal)
    requires forall a, b :: a <= b ==> cal.monthOfDay(a) <= cal.monthOfDay(b)
    requires bills != [] && MaxMonth(bills) == m
    requires cal.firstDayOf(m - 2) + 31 == cal.firstDayOf(m - 1)
    requires cal.firstDayOf(m - 1) + 28 == cal.firstDayOf(m)
    requires cal.firstDayOf(m) < cal.firstDayOf(m + 1)
    ensures forall i :: 0 <= i < 12 ==> MonthBack(bills, today, cal, i) != m - 1
  {
    var f := cal.firstDayOf(m);
    assert cal.monthOfDay(f) == m;
    assert cal.firstDayOf(m - 2) <= f - 30 < cal.firstDayOf(m - 2 + 1);
    assert cal.monthOfDay(f - 30) == m - 2;
    forall i | 0 <= i < 12 ensures MonthBack(bills, today, cal, i) != m - 1 {
      if i > 0 {
        assert f - 30 * i <= f - 30;
      }
    }
  }

  /** The month the twelve bars end at: the latest bill month, or the current month. */
  function LatestMonth(bills: seq<ReportBill>, today: int, cal: Calendar): int
  {
    if bills == [] then cal.monthOfDay(today) else MaxMonth(bills)
  }

  /** The twelve consecutive months ending at the given one, oldest first. */
  method LastTwelveMonths(latestMonth: int) returns (months: seq<int>)
    ensures |months| == 12
    ensures forall j :: 0 <= j < 12 ==> months[j] == latestMonth - 11 + j
  {
    months := [];
    var i := 11;
    while i >= 0
      invariant -1 <= i <= 11
      invariant |months| == 11 - i
      invariant forall j :: 0 <= j < |months| ==> months[j] == latestMonth - 11 + j
    {
      months := months + [latestMonth - i];
      i := i - 1;
    }
  }

  function BarTotal(data: seq<Bar>): real
  {
    if data == [] then 0.0 else BarTotal(data[..|data| - 1]) + data[|data| - 1].value
  }

  lemma {:induction false} KeySetMembers(bills: seq<ReportBill>, keyOf: ReportBill -> int, k: int)
    requires k in KeySet(bills, keyOf)
    ensures exists i :: 0 <= i < |bills| && keyOf(bills[i]) == k
  {
    var init := bills[..|bills| - 1];
    if keyOf(bills[|bills| - 1]) != k {
      KeySetMembers(init, keyOf, k);
      var i :| 0 <= i < |init| && keyOf(init[i]) == k;
      assert bills[i] == init[i];
    }
  }

  /** Consecutive monthly bars starting at month `first` that hold their month's revenue. */
  function MonthEntries(data: seq<Bar>, first: int): (es: seq<Entry>)
    ensures |es| == |data| && Ascending(es)
    ensures forall j :: 0 <= j < |data| ==> es[j] == Entry(first + j, data[j].value)
  {
    seq(|data|, j requires 0 <= j < |data| => Entry(first + j, data[j].value))
  }

  lemma {:induction false} MonthEntriesTotal(data: seq<Bar>, first: int)
    ensures EntryTotal(MonthEntries(data, first)) == BarTotal(data)
  {
    if data != [] {
      var init := data[..|data| - 1];
      MonthEntriesTotal(init, first);
      assert MonthEntries(data, first)[..|data| - 1] == MonthEntries(init, first);
    }
  }

  /** Bars for consecutive months that hold every bill's month add up to the revenue. */
  lemma MonthBarsTotal(bills: seq<ReportBill>, data: seq<Bar>, first: int)
    requires forall j :: 0 <= j < |data| ==> data[j].value == KeySum(bills, first + j, MonthOf)
    requires forall i :: 0 <= i < |bills| ==> first <= bills[i].month < first + |data|
    ensures BarTotal(data) == Revenue(bills)
  {
    var es := MonthEntries(data, first);
    forall k | k in KeySet(bills, MonthOf) ensures k in KeysOf(es) {
      KeySetMembers(bills, MonthOf, k);
      assert es[k - first].key == k;
    }
    MonthEntriesTotal(data, first);
    TrendTotal(es, bills, MonthOf);
  }

  /**
   * The twelve bars by month arithmetic: the consecutive months ending at
   * the latest month, each with its revenue; when every bill lies within
   * those months, the bars add up to the revenue.
   */
  method MonthlyByCalendar(bills: seq<ReportBill>, today: int, cal: Calendar) returns (data: seq<Bar>)
    ensures |data| == 12
    ensures forall j :: 0 <= j < 12 ==>
      data[j] == Bar(cal.monthLabel(LatestMonth(bills, today, cal) - 11 + j),
                     KeySum(bills, LatestMonth(bills, today, cal) - 11 + j, MonthOf))
    ensures (forall i :: 0 <= i < |bills| ==> LatestMonth(bills, today, cal) - 11 <= bills[i].month) ==>
      BarTotal(data) == Revenue(bills)
  {
    var monthly := GroupSum(bills, MonthOf);
    var newest := NewestMonth(bills, monthly);
    var latestMonth := if newest.Some? then newest.value else cal.monthOfDay(today);
    assert latestMonth == LatestMonth(bills, today, cal);
    var months := LastTwelveMonths(latestMonth);
    data := MonthBars(bills, monthly, months, cal);
    forall j | 0 <= j < 12
      ensures data[j] == Bar(cal.monthLabel(latestMonth - 11 + j), KeySum(bills, latestMonth - 11 + j, MonthOf))
    {
      assert months[j] == latestMonth - 11 + j;
    }
    if forall i :: 0 <= i < |bills| ==> latestMonth - 11 <= bills[i].month {
      LatestBarsTotal(bills, data, latestMonth);
    }
  }

  /** Twelve bars ending at the latest month add up to the revenue when no bill is older than the first. */
  lemma LatestBarsTotal(bills: seq<ReportBill>, data: seq<Bar>, latest: int)
    requires bills != [] ==> latest == MaxMonth(bills)
    requires |data| == 12
    requires forall j :: 0 <= j < 12 ==> data[j].value == KeySum(bills, latest - 11 + j, MonthOf)
    requires forall i :: 0 <= i < |bills| ==> latest - 11 <= bills[i].month
    ensures BarTotal(data) == Revenue(bills)
  {
    forall i | 0 <= i < |bills| ensures bills[i].month <= latest {
      BillMonthInKeySet(bills, i);
    }
    MonthBarsTotal(bills, data, latest - 11);
  }

  lemma {:induction false} BillMonthInKeySet(bills: seq<ReportBill>, i: nat)
    requires i < |bills|
    ensures bills[i].month in KeySet(bills, MonthOf)
  {
    if i < |bills| - 1 {
      BillMonthInKeySet(bills[..|bills| - 1], i);
    }
  }

  // ------------------------------------------------------------- bar chart

  /** Labels longer than 15 characters keep their first 15 and get "...". */
  function TruncateLabel(name: string): (r: string)
    ensures |name| <= 15 ==> r == name
    ensures |name| > 15 ==> |r| == 18 && r[..15] == name[..15] && r[15..] == "..."
  {
    if |name| > 15 then name[..15] + "..." else name
  }

  /** The value of the last bar with the given label, as a dictionary built from the bars would give. */
  function LookupLast(data: seq<Bar>, name: string): (r: Option<real>)
    ensures r.None? <==> forall i :: 0 <= i < |data| ==> data[i].name != name
    ensures r.Some? ==> exists i :: 0 <= i < |data| && data[i].name == name && data[i].value == r.value &&
                                    forall j :: i < j < |data| ==> data[j].name != name
  {
    if data == [] then None
    else if data[|data| - 1].name == name then Some(data[|data| - 1].value)
    else LookupLast(data[..|data| - 1], name)
  }

  function ValueOrZero(o: Option<real>): real
  {
    if o.Some? then o.value else 0.0
  }

  datatype BarSeries = BarSeries(labels: seq<string>, values: seq<real>)

  /**
   * The labels and heights a bar chart draws; None stands for the
   * "No data available" placeholder.
   */
  function CreateBarChart(data: seq<Bar>, fixedNumBars: nat, fixedLabels: seq<string>): (r: Option<BarSeries>)
    ensures r.None? <==> data == []
    ensures r.Some? ==> |r.value.labels| == |r.value.values|
    ensures r.Some? && fixedNumBars > 0 && fixedLabels != [] ==>
      r.value.labels == fixedLabels &&
      forall i :: 0 <= i < |fixedLabels| ==> r.value.values[i] == ValueOrZero(LookupLast(data, fixedLabels[i]))
    ensures r.Some? && !(fixedNumBars > 0 && fixedLabels != []) ==>
      |r.value.labels| == |data| &&
      forall i :: 0 <= i < |data| ==> r.value.labels[i] == TruncateLabel(data[i].name) && r.value.values[i] == data[i].value
  {
    if data == [] then None
    else if fixedNumBars > 0 && fixedLabels != [] then
      Some(BarSeries(fixedLabels, seq(|fixedLabels|, i requires 0 <= i < |fixedLabels| => ValueOrZero(LookupLast(data, fixedLabels[i])))))
    else
      Some(BarSeries(seq(|data|, i requires 0 <= i < |data| => TruncateLabel(data[i].name)),
                     seq(|data|, i requires 0 <= i < |data| => data[i].value)))
  }

  /**
   * Drawing bars with their own labels as the fixed labels keeps every
   * value, provided equal labels carry equal values (as the monthly series
   * does when month labels are distinct per month).
   */
  lemma FixedOwnLabels(data: seq<Bar>, fixedNumBars: nat)
    requires data != [] && fixedNumBars > 0
    requires forall i, j :: 0 <= i < |data| && 0 <= j < |data| && data[i].name == data[j].name ==> data[i].value == data[j].value
    ensures var labels := seq(|data|, i requires 0 <= i < |data| => data[i].name);
      var r := CreateBarChart(data, fixedNumBars, labels);
      r.Some? && r.value.labels == labels && forall i :: 0 <= i < |data| ==> r.value.values[i] == data[i].value
  {
    var labels := seq(|data|, i requires 0 <= i < |data| => data[i].name);
    var r := CreateBarChart(data, fixedNumBars, labels);
    forall i | 0 <= i < |data| ensures r.value.values[i] == data[i].value {
      var found := LookupLast(data, data[i].name);
      assert found.Some?;
      var k :| 0 <= k < |data| && data[k].name == data[i].name && data[k].value == found.value &&
               forall j :: k < j < |data| ==> data[j].name != data[i].name;
    }
  }

  // ----------------------------------------------------- category shares

  datatype CategoryShare = CategoryShare(name: string, revenue: real, percentage: real)

  const BarcodeCategory := "Barcode Items"

  function Percentage(revenue: real, total: real): real
  {
    if total > 0.0 then revenue / total * 100.0 else 0.0
  }

  /** Whether the barcode-items revenue is present and not zero. */
  predicate HasBarcodeShare(barcodeRevenue: Option<real>)
  {
    barcodeRevenue.Some? && barcodeRevenue.value != 0.0
  }

  /**
   * Category revenue with each category's share of the displayed total:
   * the loose-item categories in query order, then "Barcode Items" when
   * the barcode revenue is present and non-zero.
   */
  predicate IsCategoryTable(data: seq<CategoryShare>, rows: seq<(string, real)>, barcodeRevenue: Option<real>, total: real)
  {
    && |data| == |rows| + (if HasBarcodeShare(barcodeRevenue) then 1 else 0)
    && (forall i :: 0 <= i < |rows| ==>
          data[i] == CategoryShare(rows[i].0, rows[i].1, Percentage(rows[i].1, total)))
    && (HasBarcodeShare(barcodeRevenue) ==>
          data[|rows|] == CategoryShare(BarcodeCategory, barcodeRevenue.value, Percentage(barcodeRevenue.value, total)))
  }

  method CategorySales(rows: seq<(string, real)>, barcodeRevenue: Option<real>, total: real) returns (data: seq<CategoryShare>)
    ensures IsCategoryTable(data, rows, barcodeRevenue, total)
  {
    data := [];
    for i := 0 to |rows|
      invariant |data| == i
      invariant forall t :: 0 <= t < i ==> data[t] == CategoryShare(rows[t].0, rows[t].1, Percentage(rows[t].1, total))
    {
      data := data + [CategoryShare(rows[i].0, rows[i].1, Percentage(rows[i].1, total))];
    }
    if HasBarcodeShare(barcodeRevenue) {
      data := data + [CategoryShare(BarcodeCategory, barcodeRevenue.value, Percentage(barcodeRevenue.value, total))];
    }
  }

  function ShareRevenue(data: seq<CategoryShare>): real
  {
    if data == [] then 0.0 else ShareRevenue(data[..|data| - 1]) + data[|data| - 1].revenue
  }

  function SharePercent(data: seq<CategoryShare>): real
  {
    if data == [] then 0.0 else SharePercent(data[..|data| - 1]) + data[|data| - 1].percentage
  }

  lemma {:induction false} SharePercentScales(data: seq<CategoryShare>, total: real)
    requires total > 0.0
    requires forall i :: 0 <= i < |data| ==> data[i].percentage == Percentage(data[i].revenue, total)
    ensures SharePercent(data) == ShareRevenue(data) / total * 100.0
  {
    if data != [] {
      var init := data[..|data| - 1];
      SharePercentScales(init, total);
      var a := ShareRevenue(init);
      var b := data[|data| - 1].revenue;
      assert a / total * 100.0 + b / total * 100.0 == (a + b) / total * 100.0;
    }
  }

  /** When the total is the categories' own revenue and positive, the shares add up to 100. */
  lemma SharesAddUpTo100(data: seq<CategoryShare>, total: real)
    requires total > 0.0 && ShareRevenue(data) == total
    requires forall i :: 0 <= i < |data| ==> data[i].percentage == Percentage(data[i].revenue, total)
    ensures SharePercent(data) == 100.0
  {
    SharePercentScales(data, total);
  }

  /** A non-positive total gives every category 0 percent. */
  lemma NoTotalNoShare(revenue: real, total: real)
    requires total <= 0.0
    ensures Percentage(revenue, total) == 0.0
  {
  }

  // --------------------------------------------------------- report window

  datatype RangeType = Today | ThisWeek | ThisMonth | Unknown

  datatype ReportData = ReportData(startDate: int, endDate: int, summary: Summary, categorySales: seq<CategoryShare>)

  /**
   * The report's data sources: the bill, category and barcode-revenue
   * queries for a date range, the calendar, and the total as read back from
   * its two-decimal label.
   */
  datatype ReportSource = ReportSource(
    billsInRange: (int, int) -> seq<ReportBill>,
    categoryRows: (int, int) -> seq<(string, real)>,
    barcodeRevenue: (int, int) -> Option<real>,
    cal: Calendar,
    shownTotal: real -> real)

  class SalesReportWindow {
    var startDate: int
    var endDate: int
    var summary: Summary
    var dailyTrend: seq<Entry>
    var monthly: seq<Bar>
    /** The data kept for export; None until a range with bills has loaded. */
    var reportData: Option<ReportData>

    /**
     * The window shows the loaded report for its current range: the summary
     * of the range's bills; for a range without bills, empty charts; and
     * otherwise the daily trend, the twelve monthly bars as the program
     * computes them, and the export record with the category shares.
     */
    ghost predicate ShowsRange(today: int, src: ReportSource)
      reads this
    {
      var bills := src.billsInRange(startDate, endDate);
      && summary == Summarize(bills)
      && (bills == [] ==> dailyTrend == [] && monthly == [])
      && (bills != [] ==>
            && Ascending(dailyTrend)
            && KeysOf(dailyTrend) == KeySet(bills, DayOf) + Range(startDate, endDate)
            && (forall i :: 0 <= i < |dailyTrend| ==>
                  dailyTrend[i].amount == KeySum(bills, dailyTrend[i].key, DayOf))
            && EntryTotal(dailyTrend) == summary.totalRevenue
            && |monthly| == 12
            && (forall j :: 0 <= j < 12 ==>
                  monthly[j] == Bar(src.cal.monthLabel(MonthBack(bills, today, src.cal, 11 - j)),
                                    KeySum(bills, MonthBack(bills, today, src.cal, 11 - j), MonthOf)))
            && reportData.Some?
            && reportData.value.startDate == startDate && reportData.value.endDate == endDate
            && reportData.value.summary == summary
            && IsCategoryTable(reportData.value.categorySales, src.categoryRows(startDate, endDate),
                               src.barcodeRevenue(startDate, endDate), src.shownTotal(summary.totalRevenue)))
    }

    /** Opens on the last 30 days and loads them. */
    constructor (today: int, src: ReportSource)
      ensures startDate == today - 30 && endDate == today
      ensures ShowsRange(today, src)
      ensures src.billsInRange(today - 30, today) == [] ==> reportData.None?
    {
      startDate := today - 30;
      endDate := today;
      summary := EmptySummary;
      dailyTrend := [];
      monthly := [];
      reportData := None;
      new;
      LoadReportData(today, src);
    }

    /** Reloads the summary, the charts and the export data for the current range. */
    method LoadReportData(today: int, src: ReportSource)
      modifies this`summary, this`dailyTrend, this`monthly, this`reportData
      ensures ShowsRange(today, src)
      ensures src.billsInRange(startDate, endDate) == [] ==> reportData == old(reportData)
    {
      var bills := src.billsInRange(startDate, endDate);
      if bills == [] {
        summary := EmptySummary;
        dailyTrend := [];
        monthly := [];
        return;
      }
      summary := Summarize(bills);
      dailyTrend := DailyTrend(bills, startDate, endDate);
      monthly := MonthlyComparison(bills, today, src.cal);
      var categories := CategorySales(src.categoryRows(startDate, endDate), src.barcodeRevenue(startDate, endDate),
                                      src.shownTotal(summary.totalRevenue));
      reportData := Some(ReportData(startDate, endDate, summary, categories));
    }

    /**
     * The quick-range buttons: end is today and start is today, the Monday
     * of this week or the first of this month; an unknown range keeps the
     * dates. The report is reloaded in every case.
     */
    method SetDateRange(rangeType: RangeType, today: int, weekday: int, dayOfMonth: int, src: ReportSource)
      requires 0 <= weekday <= 6 && 1 <= dayOfMonth <= 31
      modifies this
      ensures rangeType == Today ==> startDate == today && endDate == today
      ensures rangeType == ThisWeek ==> startDate == today - weekday && endDate == today
      ensures rangeType == ThisMonth ==> startDate == today - (dayOfMonth - 1) && endDate == today
      ensures rangeType == Unknown ==> startDate == old(startDate) && endDate == old(endDate)
      ensures rangeType != Unknown ==> startDate <= endDate && endDate - startDate <= 30
      ensures ShowsRange(today, src)
      ensures src.billsInRange(startDate, endDate) == [] ==> reportData == old(reportData)
    {
      match rangeType {
        case Today =>
          startDate := today;
          endDate := today;
        case ThisWeek =>
          startDate := today - weekday;
          endDate := today;
        case ThisMonth =>
          startDate := today - (dayOfMonth - 1);
          endDate := today;
        case Unknown =>
      }
      LoadReportData(today, src);
    }

    /** Custom dates are stored first; a start after the end stops the reload. */
    method UpdateDateRange(startEdit: int, endEdit: int, today: int, src: ReportSource) returns (reloaded: bool)
      modifies this
      ensures startDate == startEdit && endDate == endEdit
      ensures reloaded <==> startEdit <= endEdit
      ensures reloaded ==> ShowsRange(today, src)
      ensures reloaded && src.billsInRange(startEdit, endEdit) == [] ==> reportData == old(reportData)
      ensures !reloaded ==> summary == old(summary) && dailyTrend == old(dailyTrend) &&
                            monthly == old(monthly) && reportData == old(reportData)
    {
      startDate := startEdit;
      endDate := endEdit;
      if startEdit > endEdit {
        return false;
      }
      LoadReportData(today, src);
      return true;
    }
  }
}
