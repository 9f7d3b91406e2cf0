/**
 * The dashboard (src/app/dashboard/page.tsx): the month's rows a user may
 * see, the three totals, the five most recent rows and the two per-day
 * chart series.
 *
 * The calendar is left to the caller: the month's first and last instants
 * are inputs, and `dayOf` maps a timestamp to its day of the month.
 */
module Dashboard {

  import opened Wrappers
  import opened Types
  import opened Seqs
  import opened Text
  import opened TransactionList

  // ----------------------------------------------------------------- rows

  /** Visible to `user` and inside the month window, both bounds included. */
  predicate InMonth(user: Session, monthStart: int, monthEnd: int, t: Transaction) {
    MaySee(user, t) && monthStart <= t.timestamp <= monthEnd
  }

  function InMonthOf(user: Session, monthStart: int, monthEnd: int): Transaction -> bool {
    t => InMonth(user, monthStart, monthEnd, t)
  }

  /** The rows `loadDashboardData` gets back, in the store's order. */
  function MonthRows(store: seq<Transaction>, user: Session, monthStart: int, monthEnd: int): (r: seq<Transaction>)
    ensures IsSubsequence(r, store)
    ensures forall t :: t in r <==> (t in store && (IsPrivileged(user.role) || t.createdBy == user.username)
                                     && monthStart <= t.timestamp <= monthEnd)
    ensures forall t :: multiset(r)[t] == if InMonthOf(user, monthStart, monthEnd)(t) then multiset(store)[t] else 0
  {
    FilterIsSubsequence(store, InMonthOf(user, monthStart, monthEnd));
    FilterCount(store, InMonthOf(user, monthStart, monthEnd));
    Filter(store, InMonthOf(user, monthStart, monthEnd))
  }

  /** The role gate is the list page's: the month's rows are the visible rows inside the window. */
  lemma MonthRowsAreVisibleRows(store: seq<Transaction>, user: Session, monthStart: int, monthEnd: int)
    ensures MonthRows(store, user, monthStart, monthEnd)
            == Filter(Visible(store, user), (t: Transaction) => monthStart <= t.timestamp <= monthEnd)
  {
    FilterCompose(store, t => MaySee(user, t), (t: Transaction) => monthStart <= t.timestamp <= monthEnd,
                  InMonthOf(user, monthStart, monthEnd));
  }

  // --------------------------------------------------------------- totals

  datatype Stats = Stats(totalVolume: int, totalProfit: int, transactionCount: int)

  /** `reduce((sum, t) => sum + Number(t.profit || 0), 0)`. */
  function TotalProfit(ts: seq<Transaction>): int {
    Sum(ts, ProfitOrZero)
  }

  /** The rows that record a profit. */
  function HasProfit(): Transaction -> bool {
    (t: Transaction) => t.profit.Some?
  }

  /**
   * The three cards. The profit total is the sum over the rows that record a
   * profit only: a row without one adds nothing to it.
   */
  function StatsOf(ts: seq<Transaction>): (s: Stats)
    ensures s.transactionCount == |ts|
    ensures s.totalVolume == TotalVolume(ts) && s.totalProfit == TotalProfit(ts)
    ensures s.totalProfit == Sum(Filter(ts, HasProfit()), ProfitOrZero)
  {
    SumFilter(ts, HasProfit(), ProfitOrZero);
    SumExt(ts, Masked(HasProfit(), ProfitOrZero), ProfitOrZero);
    Stats(TotalVolume(ts), TotalProfit(ts), |ts|)
  }

  /** Rows without a profit add nothing to the profit total. */
  lemma {:induction false} NoProfitAddsNothing(ts: seq<Transaction>)
    requires forall i :: 0 <= i < |ts| ==> ts[i].profit.None?
    ensures TotalProfit(ts) == 0
  {
    SumZero(ts, ProfitOrZero);
  }

  /** `transactions.slice(0, 5)`: the newest five rows, or all of them. */
  function Recent(ts: seq<Transaction>): (r: seq<Transaction>)
    ensures |r| == if |ts| < 5 then |ts| else 5
    ensures r == ts[..|r|]
  {
    Slice(ts, 0, 5)
  }

  // ------------------------------------------------------------- per day

  function DayIs(dayOf: int -> int, d: int): Transaction -> bool {
    (t: Transaction) => dayOf(t.timestamp) == d
  }

  function OnDay(ts: seq<Transaction>, dayOf: int -> int, d: int): seq<Transaction> {
    Filter(ts, DayIs(dayOf, d))
  }

  lemma OnDayAppend(ts: seq<Transaction>, t: Transaction, dayOf: int -> int, d: int)
    ensures OnDay(ts + [t], dayOf, d) == OnDay(ts, dayOf, d) + (if dayOf(t.timestamp) == d then [t] else [])
  {
    FilterAppend(ts, [t], DayIs(dayOf, d));
    assert [t][1..] == [];
  }

  /** One entry of `dailyData`. */
  datatype DayTotals = DayTotals(volume: int, profit: int)

  /** The days some row of `ts` falls on. */
  ghost predicate BucketKeys(daily: map<int, DayTotals>, ts: seq<Transaction>, dayOf: int -> int) {
    forall d :: d in daily <==> exists i :: 0 <= i < |ts| && dayOf(ts[i].timestamp) == d
  }

  /** Each entry holds the amount and profit totals of its day. */
  ghost predicate BucketTotals(daily: map<int, DayTotals>, ts: seq<Transaction>, dayOf: int -> int) {
    forall d :: d in daily ==> daily[d] == DayTotals(TotalVolume(OnDay(ts, dayOf, d)), TotalProfit(OnDay(ts, dayOf, d)))
  }

  /**
   * What the `forEach` loop leaves in `dailyData`: an entry exactly for the
   * days some row falls on, holding the amount and profit totals of that day.
   */
  ghost predicate Buckets(daily: map<int, DayTotals>, ts: seq<Transaction>, dayOf: int -> int) {
    BucketKeys(daily, ts, dayOf) && BucketTotals(daily, ts, dayOf)
  }

  lemma SumOne<T>(x: T, w: T -> int)
    ensures Sum([x], w) == w(x)
  {
    assert [x][..0] == [];
  }

  /** One turn of the `forEach` body: create the day's entry if missing, then add the row to it. */
  function AddRow(daily: map<int, DayTotals>, t: Transaction, dayOf: int -> int): map<int, DayTotals> {
    var day := dayOf(t.timestamp);
    var cur := if day in daily then daily[day] else DayTotals(0, 0);
    daily[day := DayTotals(cur.volume + t.amount, cur.profit + ProfitOrZero(t))]
  }

  lemma BucketKeysAppend(daily: map<int, DayTotals>, ts: seq<Transaction>, t: Transaction, dayOf: int -> int)
    requires BucketKeys(daily, ts, dayOf)
    ensures BucketKeys(AddRow(daily, t, dayOf), ts + [t], dayOf)
  {
    var next, day, ts' := AddRow(daily, t, dayOf), dayOf(t.timestamp), ts + [t];
    forall d | d in next
      ensures exists j :: 0 <= j < |ts'| && dayOf(ts'[j].timestamp) == d
    {
      if d != day {
        var j :| 0 <= j < |ts| && dayOf(ts[j].timestamp) == d;
        assert ts'[j] == ts[j];
      } else {
        assert ts'[|ts|] == t;
      }
    }
    forall d | exists j :: 0 <= j < |ts'| && dayOf(ts'[j].timestamp) == d
      ensures d in next
    {
      var j :| 0 <= j < |ts'| && dayOf(ts'[j].timestamp) == d;
      if j < |ts| {
        assert ts[j] == ts'[j];
      }
    }
  }

  lemma AddRowEntry(daily: map<int, DayTotals>, ts: seq<Transaction>, t: Transaction, dayOf: int -> int, d: int)
    requires Buckets(daily, ts, dayOf)
    requires d in AddRow(daily, t, dayOf)
    ensures AddRow(daily, t, dayOf)[d] == DayTotals(TotalVolume(OnDay(ts + [t], dayOf, d)), TotalProfit(OnDay(ts + [t], dayOf, d)))
  {
    OnDayAppend(ts, t, dayOf, d);
    if d == dayOf(t.timestamp) {
      TotalVolumeAppend(OnDay(ts, dayOf, d), [t]);
      SumAppend(OnDay(ts, dayOf, d), [t], ProfitOrZero);
      SumOne(t, Amount);
      SumOne(t, ProfitOrZero);
      if d !in daily {
        EmptyDayHasNoRows(ts, dayOf, d);
      }
    } else {
      assert OnDay(ts, dayOf, d) + [] == OnDay(ts, dayOf, d);
    }
  }

  /** Adding one more row to the buckets of `ts` gives the buckets of `ts + [t]`. */
  lemma BucketsAppend(daily: map<int, DayTotals>, ts: seq<Transaction>, t: Transaction, dayOf: int -> int)
    requires Buckets(daily, ts, dayOf)
    ensures Buckets(AddRow(daily, t, dayOf), ts + [t], dayOf)
  {
    BucketKeysAppend(daily, ts, t, dayOf);
    forall d | d in AddRow(daily, t, dayOf)
      ensures AddRow(daily, t, dayOf)[d] == DayTotals(TotalVolume(OnDay(ts + [t], dayOf, d)), TotalProfit(OnDay(ts + [t], dayOf, d)))
    {
      AddRowEntry(daily, ts, t, dayOf, d);
    }
  }

  /**
   * The source's two statements, creating a missing entry at zero and then
   * adding the row to it, give the same map as `AddRow`.
   */
  lemma InitThenAdd(daily: map<int, DayTotals>, t: Transaction, dayOf: int -> int)
    ensures var day := dayOf(t.timestamp);
            var m := if day !in daily then daily[day := DayTotals(0, 0)] else daily;
            m[day := DayTotals(m[day].volume + t.amount, m[day].profit + ProfitOrZero(t))] == AddRow(daily, t, dayOf)
  {
  }

  /** The loop's step: adding row `i` to the buckets of the rows before it. */
  lemma BucketsStep(daily: map<int, DayTotals>, ts: seq<Transaction>, i: int, dayOf: int -> int)
    requires 0 <= i < |ts| && Buckets(daily, ts[..i], dayOf)
    ensures Buckets(AddRow(daily, ts[i], dayOf), ts[..i + 1], dayOf)
  {
    BucketsAppend(daily, ts[..i], ts[i], dayOf);
    assert ts[..i + 1] == ts[..i] + [ts[i]];
  }

  /** The bucketing loop: each row adds its amount and profit to its day's entry. */
  method BucketByDay(ts: seq<Transaction>, dayOf: int -> int) returns (daily: map<int, DayTotals>)
    ensures Buckets(daily, ts, dayOf)
  {
    daily := map[];
    var i := 0;
    while i < |ts|
      invariant 0 <= i <= |ts|
      invariant Buckets(daily, ts[..i], dayOf)
    {
      BucketsStep(daily, ts, i, dayOf);
      daily := AddRow(daily, ts[i], dayOf);
      i := i + 1;
    }
    assert ts[..i] == ts;
  }

  /** A day no row falls on has no rows to total. */
  lemma EmptyDayHasNoRows(ts: seq<Transaction>, dayOf: int -> int, d: int)
    requires forall i :: 0 <= i < |ts| ==> dayOf(ts[i].timestamp) != d
    ensures OnDay(ts, dayOf, d) == []
  {
    FilterNone(ts, DayIs(dayOf, d));
  }

  // ---------------------------------------------------------- chart series

  /** `new Date(year, month, 0).getDate()` for a month 1..12 of the Gregorian calendar. */
  function DaysInMonth(year: int, month: int): (n: int)
    requires 1 <= month <= 12
    ensures 28 <= n <= 31
    ensures month == 2 ==> (n == 29 <==> IsLeapYear(year))
  {
    if month == 2 then (if IsLeapYear(year) then 29 else 28)
    else if month == 4 || month == 6 || month == 9 || month == 11 then 30
    else 31
  }

  predicate IsLeapYear(y: int) {
    (y % 4 == 0 && y % 100 != 0) || y % 400 == 0
  }

  /** `Array.from({ length: n }, (_, i) => `${i + 1}`)`. */
  function Labels(n: nat): (labels: seq<string>)
    ensures |labels| == n
    ensures forall i :: 0 <= i < n ==> labels[i] == IntToString(i + 1)
  {
    seq(n, i requires 0 <= i < n => IntToString(i + 1))
  }

  /** Each label reads back, through `parseInt`, as the day it names. */
  lemma LabelsParseBack(n: nat)
    ensures forall i :: 0 <= i < n ==> ParseDigits(Labels(n)[i]) == i + 1
  {
    forall i | 0 <= i < n ensures ParseDigits(Labels(n)[i]) == i + 1 {
      ParseDigitsOfNat(i + 1);
    }
  }

  /** `dailyData[parseInt(day)]?.volume || 0` over the labels. */
  function VolumeData(daily: map<int, DayTotals>, n: nat): seq<int> {
    var labels := Labels(n);
    seq(n, i requires 0 <= i < n => var d := ParseDigits(labels[i]); if d in daily then daily[d].volume else 0)
  }

  /** `dailyData[parseInt(day)]?.profit || 0` over the labels. */
  function ProfitData(daily: map<int, DayTotals>, n: nat): seq<int> {
    var labels := Labels(n);
    seq(n, i requires 0 <= i < n => var d := ParseDigits(labels[i]); if d in daily then daily[d].profit else 0)
  }

  /**
   * With the buckets of `ts`, both series have one entry per day of the
   * month, and entry `d - 1` is the total of the rows of day `d` (zero for a
   * day without rows).
   */
  lemma SeriesEntries(daily: map<int, DayTotals>, ts: seq<Transaction>, dayOf: int -> int, n: nat)
    requires Buckets(daily, ts, dayOf)
    ensures |VolumeData(daily, n)| == n && |ProfitData(daily, n)| == n
    ensures forall d :: 1 <= d <= n ==> VolumeData(daily, n)[d - 1] == TotalVolume(OnDay(ts, dayOf, d))
    ensures forall d :: 1 <= d <= n ==> ProfitData(daily, n)[d - 1] == TotalProfit(OnDay(ts, dayOf, d))
  {
    LabelsParseBack(n);
    forall d | 1 <= d <= n
      ensures VolumeData(daily, n)[d - 1] == TotalVolume(OnDay(ts, dayOf, d))
      ensures ProfitData(daily, n)[d - 1] == TotalProfit(OnDay(ts, dayOf, d))
    {
      assert ParseDigits(Labels(n)[d - 1]) == d;
      if d !in daily {
        EmptyDayHasNoRows(ts, dayOf, d);
      }
    }
  }

  function Id(x: int): int {
    x
  }

  /** The totals of days 1 to k. */
  function DaySums(ts: seq<Transaction>, dayOf: int -> int, w: Transaction -> int, k: nat): int
    decreases k
  {
    if k == 0 then 0 else DaySums(ts, dayOf, w, k - 1) + Sum(OnDay(ts, dayOf, k), w)
  }

  function DayWithin(dayOf: int -> int, k: int): Transaction -> bool {
    (t: Transaction) => 1 <= dayOf(t.timestamp) <= k
  }

  /** Days 1 to k together total the rows whose day lies in 1..k. */
  lemma {:induction false} DaySumsWithin(ts: seq<Transaction>, dayOf: int -> int, w: Transaction -> int, k: nat)
    ensures DaySums(ts, dayOf, w, k) == Sum(ts, Masked(DayWithin(dayOf, k), w))
    decreases k
  {
    if k == 0 {
      SumZero(ts, Masked(DayWithin(dayOf, 0), w));
    } else {
      DaySumsWithin(ts, dayOf, w, k - 1);
      SumFilter(ts, DayIs(dayOf, k), w);
      SumAdd(ts, Masked(DayWithin(dayOf, k - 1), w), Masked(DayIs(dayOf, k), w), Masked(DayWithin(dayOf, k), w));
    }
  }

  /** A series whose entry d - 1 is day d's total sums to the days' totals. */
  lemma {:induction false} SeriesSum(series: seq<int>, ts: seq<Transaction>, dayOf: int -> int, w: Transaction -> int)
    requires forall d :: 1 <= d <= |series| ==> series[d - 1] == Sum(OnDay(ts, dayOf, d), w)
    ensures Sum(series, Id) == DaySums(ts, dayOf, w, |series|)
    decreases |series|
  {
    if series != [] {
      var init := series[..|series| - 1];
      assert forall k :: 0 <= k < |init| ==> init[k] == series[k];
      SeriesSum(init, ts, dayOf, w);
    }
  }

  /**
   * When every row falls on a day of the month, the chart series add up to
   * the dashboard's volume and profit totals.
   */
  lemma SeriesAddUpToTotals(daily: map<int, DayTotals>, ts: seq<Transaction>, dayOf: int -> int, n: nat)
    requires Buckets(daily, ts, dayOf)
    requires forall i :: 0 <= i < |ts| ==> 1 <= dayOf(ts[i].timestamp) <= n
    ensures Sum(VolumeData(daily, n), Id) == TotalVolume(ts)
    ensures Sum(ProfitData(daily, n), Id) == TotalProfit(ts)
  {
    SeriesEntries(daily, ts, dayOf, n);
    SeriesSum(VolumeData(daily, n), ts, dayOf, Amount);
    SeriesSum(ProfitData(daily, n), ts, dayOf, ProfitOrZero);
    DaySumsWithin(ts, dayOf, Amount, n);
    DaySumsWithin(ts, dayOf, ProfitOrZero, n);
    SumExt(ts, Masked(DayWithin(dayOf, n), Amount), Amount);
    SumExt(ts, Masked(DayWithin(dayOf, n), ProfitOrZero), ProfitOrZero);
  }

  // ----------------------------------------------------------------- page

  /** The dashboard's state: the totals, the recent rows and the two chart series. */
  class DashboardPage {
    var stats: Stats
    var recent: seq<Transaction>
    var labels: seq<string>
    var volumeData: seq<int>
    var profitData: seq<int>

    constructor ()
      ensures stats == Stats(0, 0, 0) && recent == [] && labels == [] && volumeData == [] && profitData == []
    {
      stats, recent, labels, volumeData, profitData := Stats(0, 0, 0), [], [], [], [];
    }

    /**
     * `loadDashboardData` for the month `month` of `year`, whose first and last
     * instants are `monthStart` and `monthEnd`. A failed query changes nothing.
     */
    method Load(store: seq<Transaction>, user: Session, year: int, month: int, monthStart: int, monthEnd: int,
                dayOf: int -> int, failed: bool)
      requires 1 <= month <= 12
      modifies this
      ensures failed ==> stats == old(stats) && recent == old(recent) && labels == old(labels)
                         && volumeData == old(volumeData) && profitData == old(profitData)
      ensures !failed ==>
                var rows := MonthRows(store, user, monthStart, monthEnd);
                var n := DaysInMonth(year, month);
                stats == StatsOf(rows) && recent == Recent(rows) && labels == Labels(n)
                && |volumeData| == n && |profitData| == n
                && (forall d :: 1 <= d <= n ==> volumeData[d - 1] == TotalVolume(OnDay(rows, dayOf, d)))
                && (forall d :: 1 <= d <= n ==> profitData[d - 1] == TotalProfit(OnDay(rows, dayOf, d)))
    {
      if failed {
        return;
      }
      var rows := MonthRows(store, user, monthStart, monthEnd);
      stats := StatsOf(rows);
      recent := Recent(rows);
      var daily := BucketByDay(rows, dayOf);
      var n := DaysInMonth(year, month);
      labels := Labels(n);
      SetSeries(daily, rows, dayOf, n);
    }

    /** The two chart series of the buckets `daily` of `rows`, one entry per label. */
    method SetSeries(daily: map<int, DayTotals>, rows: seq<Transaction>, dayOf: int -> int, n: nat)
      requires Buckets(daily, rows, dayOf)
      modifies this`volumeData, this`profitData
      ensures volumeData == VolumeData(daily, n) && profitData == ProfitData(daily, n)
      ensures |volumeData| == n && |profitData| == n
      ensures forall d :: 1 <= d <= n ==> volumeData[d - 1] == TotalVolume(OnDay(rows, dayOf, d))
      ensures forall d :: 1 <= d <= n ==> profitData[d - 1] == TotalProfit(OnDay(rows, dayOf, d))
    {
      SeriesEntries(daily, rows, dayOf, n);
      volumeData := VolumeData(daily, n);
      profitData := ProfitData(daily, n);
    }
  }
}
