/**
 * The main dashboard (main/static/js/script.js): the period ranges of the
 * period buttons, the transactions a period keeps, the chart's buckets,
 * the averages and the savings percentage, the checks of the input forms,
 * the page's own copies of the user's transactions, accounts and goals and
 * how saving, deleting and clearing change them, and `escapeHtml`.
 * Amounts are JavaScript numbers, modelled as reals; `parseFloat` of a
 * field is `None` when it gives NaN; `new Date()` is the parameter `now`.
 */
module DashboardScript {
  import opened Wrappers
  import opened Text
  import opened Calendar
  import opened ForecastScript

  // ---------------------------------------------------------------------
  // getDateRange

  /** The `data-period` of a period button. */
  datatype Period = Week | Month | Year | Other

  function PeriodOf(name: string): (p: Period)
    ensures p == Other <==> name != "week" && name != "month" && name != "year"
  {
    if name == "week" then Week else if name == "month" then Month else if name == "year" then Year else Other
  }

  /** `{ startDate, endDate }` as local instants in milliseconds. */
  datatype Range = Range(start: int, end: int)

  /** The bucket of a day in a Monday-first week, `(getDay() + 6) % 7`: Monday 0, ..., Sunday 6. */
  function WeekPosition(n: int): (p: int)
    ensures 0 <= p < 7
  {
    (Weekday(n) + 6) % 7
  }

  /** The day `now.getDate() - now.getDay() + (now.getDay() === 0 ? -6 : 1)` falls on. */
  function WeekStartDay(n: int): int {
    var w := Weekday(n);
    n - w + (if w == 0 then -6 else 1)
  }

  /** The days of the month `now` is in: `new Date(year, month + 1, 0).getDate()`. */
  function MonthDays(now: When): (n: int)
    ensures 28 <= n <= 31
  {
    DaysInMonth(now.date.year, now.date.month)
  }

  function MonthRange(y: int, m: int): Range
    requires 1 <= m <= 12
  {
    Range(DayStart(DayNumber(FirstOfMonth(y, m))), DayEnd(DayNumber(LastOfMonth(y, m))))
  }

  /**
   * `getDateRange(period)`: the Monday-first week, the calendar month or the
   * calendar year around `now`, from 00:00:00.000 of the first day to
   * 23:59:59.999 of the last; any other period is the month.
   */
  function DateRange(period: Period, now: When): Range {
    var d := now.date;
    if period == Week then
      var s := WeekStartDay(DayNumber(d));
      Range(DayStart(s), DayEnd(s + 6))
    else if period == Year then
      Range(DayStart(DayNumber(Date(d.year, 1, 1))), DayEnd(DayNumber(Date(d.year, 12, 31))))
    else MonthRange(d.year, d.month)
  }

  /** The week starts on a Monday, at most six days before the given day. */
  lemma WeekStartIsMonday(n: int)
    ensures WeekStartDay(n) == n - WeekPosition(n)
    ensures Weekday(WeekStartDay(n)) == 1
    ensures WeekStartDay(n) <= n <= WeekStartDay(n) + 6
  {
    var w := Weekday(n);
    var q := (n + 6) / 7;
    assert n + 6 == 7 * q + w;
    if w == 0 {
      assert WeekStartDay(n) + 6 == 7 * (q - 1) + 1;
    } else {
      assert WeekStartDay(n) + 6 == 7 * q + 1;
    }
  }

  /** The seven days from a Monday are exactly the days whose week starts on it. */
  lemma WeekDays(s: int, k: int)
    requires Weekday(s) == 1
    ensures s <= k <= s + 6 <==> WeekStartDay(k) == s
  {
    WeekStartIsMonday(k);
    if s <= k <= s + 6 {
      var q := (s + 6) / 7;
      assert s + 6 == 7 * q + 1;
      var j := k - s;
      if j == 6 {
        assert k + 6 == 7 * (q + 1);
        assert Weekday(k) == 0;
      } else {
        assert k + 6 == 7 * q + (1 + j);
        assert Weekday(k) == 1 + j;
      }
    }
  }

  /** A transaction's `new Date(t.date)` lies in a range, bounds included; an invalid date lies in none. */
  predicate InRange(t: Tx, r: Range) {
    t.date.Some? && r.start <= Instant(t.date.value) <= r.end
  }

  /** The week range holds a stamp exactly when the stamp's Monday-first week is that of `now`. */
  lemma WeekRangeIff(t: Tx, now: When)
    requires t.date.Some?
    ensures InRange(t, DateRange(Week, now))
        <==> WeekStartDay(DayNumber(t.date.value.date)) == WeekStartDay(DayNumber(now.date))
  {
    var s := WeekStartDay(DayNumber(now.date));
    WeekStartIsMonday(DayNumber(now.date));
    WeekDays(s, DayNumber(t.date.value.date));
    InstantInDays(t.date.value, s, s + 6);
  }

  /** The month range, and the range of any period other than week and year, holds the stamps of `now`'s month. */
  lemma MonthRangeIff(t: Tx, period: Period, now: When)
    requires t.date.Some? && period != Week && period != Year
    ensures InRange(t, DateRange(period, now))
        <==> t.date.value.date.year == now.date.year && t.date.value.date.month == now.date.month
  {
    InMonthIff(t.date.value, now.date.year, now.date.month);
  }

  /** The year range holds the stamps of `now`'s year. */
  lemma YearRangeIff(t: Tx, now: When)
    requires t.date.Some?
    ensures InRange(t, DateRange(Year, now)) <==> t.date.value.date.year == now.date.year
  {
    InYearIff(t.date.value, now.date.year);
  }

  /** Every range holds `now` itself; the week is seven whole days. */
  lemma RangeHoldsNow(period: Period, now: When)
    ensures DateRange(period, now).start <= Instant(now) <= DateRange(period, now).end
    ensures period == Week ==> DateRange(period, now).end - DateRange(period, now).start == 7 * MsPerDay - 1
  {
    var t := Tx(0, "", 0.0, "", Some(now));
    if period == Week {
      WeekRangeIff(t, now);
    } else if period == Year {
      YearRangeIff(t, now);
    } else {
      MonthRangeIff(t, period, now);
    }
  }

  // ---------------------------------------------------------------------
  // filterTransactions

  /** `transactions.filter(t => d >= startDate && d <= endDate)`. */
  function Filter(ts: seq<Tx>, r: Range): (kept: seq<Tx>)
    ensures |kept| <= |ts|
  {
    if ts == [] then []
    else
      var rest := Filter(ts[..|ts| - 1], r);
      if InRange(ts[|ts| - 1], r) then rest + [ts[|ts| - 1]] else rest
  }

  /** `filterTransactions(transactions, period)`. */
  function FilterTransactions(ts: seq<Tx>, period: Period, now: When): seq<Tx> {
    Filter(ts, DateRange(period, now))
  }

  /** Filtering a concatenation filters each part and keeps them in order, so the kept transactions keep their relative order. */
  lemma {:induction false} FilterAppend(a: seq<Tx>, b: seq<Tx>, r: Range)
    ensures Filter(a + b, r) == Filter(a, r) + Filter(b, r)
    decreases |b|
  {
    if b == [] {
      assert a + b == a;
    } else {
      var n := |b| - 1;
      assert (a + b)[..|a + b| - 1] == a + b[..n];
      assert (a + b)[|a + b| - 1] == b[n];
      FilterAppend(a, b[..n], r);
    }
  }

  /** A single transaction is kept exactly when it lies in the range. */
  lemma FilterOne(t: Tx, r: Range)
    ensures Filter([t], r) == (if InRange(t, r) then [t] else [])
  {
    assert [t][..0] == [];
  }

  /** A transaction is kept exactly when it is in the list and in the range. */
  lemma {:induction false} FilterKeeps(ts: seq<Tx>, r: Range)
    ensures forall t :: t in Filter(ts, r) <==> t in ts && InRange(t, r)
    decreases |ts|
  {
    if ts != [] {
      var n := |ts| - 1;
      FilterKeeps(ts[..n], r);
      assert ts == ts[..n] + [ts[n]];
      forall t | t in ts && InRange(t, r) ensures t in Filter(ts, r) {
        if t != ts[n] {
          assert t in ts[..n];
        }
      }
    }
  }

  // ---------------------------------------------------------------------
  // updateChart

  /** The length of the chart's data arrays: 7 for a week, the month's days for a month, 12 otherwise. */
  function BucketCount(period: Period, now: When): (n: nat)
    ensures n > 0
  {
    if period == Week then 7 else if period == Month then MonthDays(now) else 12
  }

  /**
   * The slot a transaction's amount is added to: its weekday from Monday,
   * its day of month less one when that is below the month's length, or its
   * month; `None` when the date is invalid or the day falls outside the array.
   */
  function BucketOf(t: Tx, period: Period, now: When): (k: Option<nat>)
    ensures k.Some? ==> k.value < BucketCount(period, now)
  {
    if t.date.None? then None
    else
      var d := t.date.value.date;
      if period == Week then Some(WeekPosition(DayNumber(d)))
      else if period == Month then (if 0 <= d.day - 1 < MonthDays(now) then Some(d.day - 1) else None)
      else Some(d.month - 1)
  }

  /** `data[k] += amount` for the slot found, and nothing without one. */
  function AddAt(data: seq<real>, k: Option<nat>, amount: real): (r: seq<real>)
    ensures |r| == |data|
  {
    if k.Some? && k.value < |data| then data[k.value := data[k.value] + amount] else data
  }

  /** The data array after the `forEach` over the filtered transactions. */
  function Buckets(ts: seq<Tx>, period: Period, now: When): (b: seq<real>)
    ensures |b| == BucketCount(period, now)
  {
    if ts == [] then seq(BucketCount(period, now), _ => 0.0)
    else AddAt(Buckets(ts[..|ts| - 1], period, now), BucketOf(ts[|ts| - 1], period, now), ts[|ts| - 1].amount)
  }

  /** The transactions that land in slot `k`. */
  function InBucket(ts: seq<Tx>, period: Period, now: When, k: nat): seq<Tx> {
    if ts == [] then []
    else
      var rest := InBucket(ts[..|ts| - 1], period, now, k);
      if BucketOf(ts[|ts| - 1], period, now) == Some(k) then rest + [ts[|ts| - 1]] else rest
  }

  /** Each slot holds the total of the transactions that land in it. */
  lemma {:induction false} BucketsAre(ts: seq<Tx>, period: Period, now: When)
    ensures forall k :: 0 <= k < BucketCount(period, now) ==> Buckets(ts, period, now)[k] == Total(InBucket(ts, period, now, k))
    decreases |ts|
  {
    if ts != [] {
      BucketsAre(ts[..|ts| - 1], period, now);
    }
  }

  /** When every transaction lands in some slot, the slots add up to the total of the transactions. */
  lemma {:induction false} BucketsSum(ts: seq<Tx>, period: Period, now: When)
    requires forall i :: 0 <= i < |ts| ==> BucketOf(ts[i], period, now).Some?
    ensures Sum(Buckets(ts, period, now)) == Total(ts)
    decreases |ts|
  {
    if ts == [] {
      SumZero(Buckets(ts, period, now));
    } else {
      var n := |ts| - 1;
      BucketsSum(ts[..n], period, now);
      var slot := BucketOf(ts[n], period, now);
      SumBump(Buckets(ts[..n], period, now), slot.value, ts[n].amount);
    }
  }

  /** Every transaction the period keeps lands in a slot of that period's chart. */
  lemma KeptAreBucketed(t: Tx, period: Period, now: When)
    requires InRange(t, DateRange(period, now))
    ensures BucketOf(t, period, now).Some?
  {
    if period == Month {
      MonthRangeIff(t, period, now);
    }
  }

  /** The chart of a period shows everything the period keeps: its slots add up to the filtered total. */
  lemma ChartTotals(ts: seq<Tx>, period: Period, now: When)
    ensures Sum(Buckets(FilterTransactions(ts, period, now), period, now)) == Total(FilterTransactions(ts, period, now))
  {
    var r := DateRange(period, now);
    var kept := Filter(ts, r);
    FilterKeeps(ts, r);
    forall i | 0 <= i < |kept| ensures BucketOf(kept[i], period, now).Some? {
      assert kept[i] in kept;
      KeptAreBucketed(kept[i], period, now);
    }
    BucketsSum(kept, period, now);
  }

  /** In a week, every kept transaction is dated, and its slot is its distance in days from that week's Monday. */
  lemma WeekSlots(ts: seq<Tx>, now: When)
    ensures forall t :: t in FilterTransactions(ts, Week, now) ==>
      t.date.Some? && BucketOf(t, Week, now).Some?
      && DayNumber(t.date.value.date) == WeekStartDay(DayNumber(now.date)) + BucketOf(t, Week, now).value
  {
    FilterKeeps(ts, DateRange(Week, now));
    forall t | t in FilterTransactions(ts, Week, now)
      ensures t.date.Some? && BucketOf(t, Week, now).Some?
        && DayNumber(t.date.value.date) == WeekStartDay(DayNumber(now.date)) + BucketOf(t, Week, now).value
    {
      WeekRangeIff(t, now);
      WeekStartIsMonday(DayNumber(t.date.value.date));
    }
  }

  /** The chart's x-axis labels. */
  function Labels(period: Period, now: When): (ls: seq<string>)
    ensures |ls| == BucketCount(period, now)
  {
    if period == Week then ["Пн", "Вт", "Ср", "Чт", "Пт", "Сб", "Вс"]
    else if period == Month then seq(MonthDays(now), i requires 0 <= i < MonthDays(now) => NatToString(i + 1))
    else ["Янв", "Фев", "Мар", "Апр", "Май", "Июн", "Июл", "Авг", "Сен", "Окт", "Ноя", "Дек"]
  }

  /** `new Array(n).fill(0)` and the `forEach` that adds every amount to its slot. */
  method FillBuckets(kept: seq<Tx>, period: Period, now: When) returns (data: seq<real>)
    ensures data == Buckets(kept, period, now)
  {
    var slots := new real[BucketCount(period, now)](_ => 0.0);
    assert slots[..] == Buckets([], period, now);
    for i := 0 to |kept|
      invariant slots.Length == BucketCount(period, now)
      invariant slots[..] == Buckets(kept[..i], period, now)
    {
      assert kept[..i + 1][..i] == kept[..i];
      match BucketOf(kept[i], period, now)
      case Some(k) =>
        slots[k] := slots[k] + kept[i].amount;
      case None =>
    }
    assert kept[..|kept|] == kept;
    data := slots[..];
  }

  /** `updateChart(period)`: the labels and the income and expense series of the period. */
  method UpdateChart(incomeTransactions: seq<Tx>, expensesTransactions: seq<Tx>, period: Period, now: When)
    returns (labels: seq<string>, incomeData: seq<real>, expensesData: seq<real>)
    ensures labels == Labels(period, now)
    ensures incomeData == Buckets(FilterTransactions(incomeTransactions, period, now), period, now)
    ensures expensesData == Buckets(FilterTransactions(expensesTransactions, period, now), period, now)
    ensures |labels| == |incomeData| == |expensesData|
    ensures Sum(incomeData) == Total(FilterTransactions(incomeTransactions, period, now))
    ensures Sum(expensesData) == Total(FilterTransactions(expensesTransactions, period, now))
  {
    ChartTotals(incomeTransactions, period, now);
    ChartTotals(expensesTransactions, period, now);
    labels := Labels(period, now);
    incomeData := FillBuckets(FilterTransactions(incomeTransactions, period, now), period, now);
    expensesData := FillBuckets(FilterTransactions(expensesTransactions, period, now), period, now);
  }

  // ---------------------------------------------------------------------
  // updateAverages and updateEconomy

  /** The units of time in a period: 7 days, the month's days, 12 months, and 1 for anything else. */
  function Divisor(period: Period, now: When): (d: int)
    ensures d >= 1
    ensures period == Week ==> d == 7
    ensures period == Month ==> d == MonthDays(now)
    ensures period == Year ==> d == 12
    ensures period == Other ==> d == 1
  {
    if period == Week then 7 else if period == Month then MonthDays(now) else if period == Year then 12 else 1
  }

  /** `divisor ? total / divisor : 0`. */
  function Average(total: real, divisor: int): (avg: real)
    ensures divisor != 0 ==> avg * divisor as real == total
    ensures divisor == 0 ==> avg == 0.0
  {
    if divisor != 0 then total / divisor as real else 0.0
  }

  /** `updateAverages(period)`: the average income and expense per unit of the period. */
  function Averages(incomeTransactions: seq<Tx>, expensesTransactions: seq<Tx>, period: Period, now: When): (avg: (real, real))
    ensures avg.0 == Total(FilterTransactions(incomeTransactions, period, now)) / Divisor(period, now) as real
    ensures avg.1 == Total(FilterTransactions(expensesTransactions, period, now)) / Divisor(period, now) as real
  {
    var d := Divisor(period, now);
    (Average(Total(FilterTransactions(incomeTransactions, period, now)), d),
     Average(Total(FilterTransactions(expensesTransactions, period, now)), d))
  }

  /** `Math.round`: the nearest integer, halves rounded up. */
  function Round(x: real): (n: int)
    ensures n as real - 0.5 <= x < n as real + 0.5
  {
    (x + 0.5).Floor
  }

  /** `periodPercent`: the savings as a rounded percentage of the income, and 0 without income. */
  function SavingsPercent(income: real, expenses: real): int {
    if income > 0.0 then Round((income - expenses) / income * 100.0) else 0
  }

  /** Bounds on a number, multiplied by a positive factor, bound the product. */
  lemma BetweenScaled(lo: real, x: real, hi: real, t: real)
    requires t > 0.0 && lo <= x < hi
    ensures lo * t <= x * t < hi * t
  {
    assert (x - lo) * t >= 0.0;
    assert (hi - x) * t > 0.0;
  }

  /** The share of the income left over: between 0 and 1 when the expenses are, 1 without expenses, 0 when all is spent. */
  lemma ShareOfIncome(income: real, expenses: real)
    requires income > 0.0
    ensures var q := (income - expenses) / income;
      q * income == income - expenses
      && (0.0 <= expenses <= income ==> 0.0 <= q <= 1.0)
      && (expenses == 0.0 ==> q == 1.0)
      && (expenses == income ==> q == 0.0)
      && (expenses > income ==> q < 0.0)
  {
    var q := (income - expenses) / income;
    assert q * income == income - expenses;
    if 0.0 <= expenses <= income {
      ScaleOrder(q, 1.0, income);
      ScaleOrder(0.0, q, income);
    }
    if expenses == 0.0 {
      ScaleOrder(1.0, q, income);
      ScaleOrder(q, 1.0, income);
    }
    if expenses >= income {
      ScaleOrder(q, 0.0, income);
      ScaleOrder(0.0, q, income);
    }
  }

  /** With income, the percentage is within half a point of the exact share saved. */
  lemma SavingsPercentNearest(income: real, expenses: real)
    requires income > 0.0
    ensures var p := SavingsPercent(income, expenses) as real;
      (p - 0.5) * income <= (income - expenses) * 100.0 < (p + 0.5) * income
  {
    var x := (income - expenses) / income * 100.0;
    assert x * income == (income - expenses) * 100.0;
    var p := SavingsPercent(income, expenses) as real;
    BetweenScaled(p - 0.5, x, p + 0.5, income);
  }


  /**
   * With income, the percentage is the nearest integer to the share saved;
   * it is 100 when nothing is spent, 0 when everything is, between the two
   * when the expenses are, and not positive when the expenses exceed the
   * income. Without income it is 0.
   */
  lemma SavingsPercentBounds(income: real, expenses: real)
    ensures income <= 0.0 ==> SavingsPercent(income, expenses) == 0
    ensures income > 0.0 ==>
      var p := SavingsPercent(income, expenses) as real;
      (p - 0.5) * income <= (income - expenses) * 100.0 < (p + 0.5) * income
    ensures income > 0.0 && expenses == 0.0 ==> SavingsPercent(income, expenses) == 100
    ensures income > 0.0 && expenses == income ==> SavingsPercent(income, expenses) == 0
    ensures income > 0.0 && 0.0 <= expenses <= income ==> 0 <= SavingsPercent(income, expenses) <= 100
    ensures income > 0.0 && expenses > income ==> SavingsPercent(income, expenses) <= 0
  {
    if income > 0.0 {
      ShareOfIncome(income, expenses);
      SavingsPercentNearest(income, expenses);
    }
  }


  /** What `updateEconomy(period)` shows: the period's income, expenses, savings and savings percentage. */
  datatype Economy = Economy(income: real, expenses: real, savings: real, percent: int)

  function EconomyOf(incomeTransactions: seq<Tx>, expensesTransactions: seq<Tx>, period: Period, now: When): (e: Economy)
    ensures e.income == Total(FilterTransactions(incomeTransactions, period, now))
    ensures e.expenses == Total(FilterTransactions(expensesTransactions, period, now))
    ensures e.savings == e.income - e.expenses && e.percent == SavingsPercent(e.income, e.expenses)
  {
    var i := Total(FilterTransactions(incomeTransactions, period, now));
    var x := Total(FilterTransactions(expensesTransactions, period, now));
    Economy(i, x, i - x, SavingsPercent(i, x))
  }

  // ---------------------------------------------------------------------
  // The input forms

  /** The characters JavaScript's `String.prototype.trim` removes. */
  predicate JsSpace(c: char) {
    ('\t' <= c <= '\r') || c == ' ' || c == '\U{A0}' || c == '\U{1680}' || ('\U{2000}' <= c <= '\U{200A}')
    || c == '\U{2028}' || c == '\U{2029}' || c == '\U{202F}' || c == '\U{205F}' || c == '\U{3000}' || c == '\U{FEFF}'
  }

  /** `s.trim()`. */
  function JsTrim(s: string): (r: string)
    ensures |r| <= |s|
    ensures r == [] <==> forall k :: 0 <= k < |s| ==> JsSpace(s[k])
    ensures r != [] ==> !JsSpace(r[0]) && !JsSpace(r[|r| - 1])
    decreases |s|
  {
    if s == [] then []
    else if JsSpace(s[0]) then
      assert forall k :: 1 <= k < |s| ==> s[k] == s[1..][k - 1];
      JsTrim(s[1..])
    else if JsSpace(s[|s| - 1]) then
      assert forall k :: 0 <= k < |s| - 1 ==> s[k] == s[..|s| - 1][k];
      JsTrim(s[..|s| - 1])
    else s
  }


  /** The texts the handlers pass to `alert`. */
  datatype Message =
      BadAmount
    | FillAllFields
    | NoAccountName
    | NoGoalName
    | BadTarget
    | NegativeCurrent
    | IncomeNotSaved
    | ExpenseNotSaved
    | AccountNotSaved
    | AccountNotDeleted
    | GoalNotSaved
    | TransactionNotDeleted
    | GoalNotDeleted
    | NothingSelected
    | Cleared
    | ClearFailed

  function MessageText(m: Message): string {
    match m
    case BadAmount => "Введите корректную сумму"
    case FillAllFields => "Заполните все поля корректно"
    case NoAccountName => "Введите название счета"
    case NoGoalName => "Введите название цели"
    case BadTarget => "Введите корректную целевую сумму"
    case NegativeCurrent => "Текущая сумма не может быть отрицательной"
    case IncomeNotSaved => "Не удалось сохранить доход. Проверьте соединение и повторите попытку."
    case ExpenseNotSaved => "Не удалось сохранить расход. Проверьте соединение и повторите попытку."
    case AccountNotSaved => "Не удалось сохранить счет. Проверьте соединение и повторите попытку."
    case AccountNotDeleted => "Не удалось удалить счет. Попробуйте снова."
    case GoalNotSaved => "Не удалось сохранить цель. Проверьте соединение и повторите попытку."
    case TransactionNotDeleted => "Не удалось удалить транзакцию. Попробуйте снова."
    case GoalNotDeleted => "Не удалось удалить цель. Попробуйте снова."
    case NothingSelected => "Выберите данные для удаления"
    case Cleared => "Данные успешно удалены"
    case ClearFailed => "Не удалось удалить данные. Попробуйте снова."
  }

  /** The body of a transaction POST or PUT; `date` is the moment the form's date and time denote. */
  datatype TxRequest = TxRequest(name: string, amount: real, kind: string, category: string, date: When)

  /** The checks and the request of `addIncome`: a positive amount; an empty name becomes "Доход". */
  function IncomeForm(amount: Option<real>, name: string, date: When): (r: Result<TxRequest, Message>)
    ensures r.Ok? <==> amount.Some? && amount.value > 0.0
    ensures r.Err? ==> r.error == BadAmount
    ensures r.Ok? ==> (r.value.amount == amount.value && r.value.kind == "income" && r.value.category == "доход"
      && r.value.name == (if JsTrim(name) == "" then "Доход" else JsTrim(name)))
  {
    if amount.None? || amount.value <= 0.0 then Err(BadAmount)
    else Ok(TxRequest(if JsTrim(name) == "" then "Доход" else JsTrim(name), amount.value, "income", "доход", date))
  }

  /** The checks and the request of `addExpense`: a positive amount, a name and a category. */
  function ExpenseForm(amount: Option<real>, name: string, category: string, date: When): (r: Result<TxRequest, Message>)
    ensures r.Ok? <==> amount.Some? && amount.value > 0.0 && JsTrim(name) != "" && JsTrim(category) != ""
    ensures r.Err? ==> r.error == FillAllFields
    ensures r.Ok? ==> (r.value.amount == amount.value && r.value.kind == "expense"
      && r.value.name == JsTrim(name) && r.value.category == JsTrim(category))
  {
    if amount.None? || amount.value <= 0.0 || JsTrim(category) == "" || JsTrim(name) == "" then Err(FillAllFields)
    else
      // `Math.abs` of a positive amount is the amount itself.
      Ok(TxRequest(JsTrim(name), amount.value, "expense", JsTrim(category), date))
  }

  datatype AccountRequest = AccountRequest(name: string, amount: real, kind: string, desc: string)

  /** The checks and the request of `saveAccountFromModal`: a name first, then an amount of at least 0. */
  function AccountForm(name: string, amount: Option<real>, kind: string, desc: string): (r: Result<AccountRequest, Message>)
    ensures JsTrim(name) == "" ==> r == Err(NoAccountName)
    ensures JsTrim(name) != "" && (amount.None? || amount.value < 0.0) ==> r == Err(BadAmount)
    ensures r.Ok? <==> JsTrim(name) != "" && amount.Some? && amount.value >= 0.0
    ensures r.Ok? ==> r.value == AccountRequest(JsTrim(name), amount.value, if kind == "" then "other" else kind, JsTrim(desc))
  {
    if JsTrim(name) == "" then Err(NoAccountName)
    else if amount.None? || amount.value < 0.0 then Err(BadAmount)
    else Ok(AccountRequest(JsTrim(name), amount.value, if kind == "" then "other" else kind, JsTrim(desc)))
  }

  datatype GoalRequest = GoalRequest(name: string, target: real, current: real)

  /** The checks and the request of `saveGoalFromModal`: a name, then a positive target, then a current amount of at least 0. */
  function GoalForm(name: string, target: Option<real>, current: Option<real>): (r: Result<GoalRequest, Message>)
    ensures JsTrim(name) == "" ==> r == Err(NoGoalName)
    ensures JsTrim(name) != "" && (target.None? || target.value <= 0.0) ==> r == Err(BadTarget)
    ensures JsTrim(name) != "" && target.Some? && target.value > 0.0 && (current.None? || current.value < 0.0) ==> r == Err(NegativeCurrent)
    ensures r.Ok? <==> JsTrim(name) != "" && target.Some? && target.value > 0.0 && current.Some? && current.value >= 0.0
    ensures r.Ok? ==> r.value == GoalRequest(JsTrim(name), target.value, current.value)
  {
    if JsTrim(name) == "" then Err(NoGoalName)
    else if target.None? || target.value <= 0.0 then Err(BadTarget)
    else if current.None? || current.value < 0.0 then Err(NegativeCurrent)
    else Ok(GoalRequest(JsTrim(name), target.value, current.value))
  }

  // ---------------------------------------------------------------------
  // The page's state and how the handlers change it

  /** An entry of `accounts`. */
  datatype Account = Account(id: int, name: string, amount: real, kind: string, desc: string)

  /** An entry of `goals`. */
  datatype Goal = Goal(id: int, name: string, targetAmount: real, currentAmount: real)

  /**
   * The module-level variables of the page: the totals, the four lists and
   * the indices of the entry being edited or viewed (`null` is `None`).
   */
  datatype Board = Board(
    income: real, expenses: real,
    incomeTransactions: seq<Tx>, expensesTransactions: seq<Tx>,
    accounts: seq<Account>, goals: seq<Goal>,
    editingTransaction: Option<nat>, editingIsIncome: Option<bool>,
    editingAccount: Option<nat>, editingGoal: Option<nat>,
    viewingTransaction: Option<nat>, viewingIsIncome: Option<bool>,
    viewingAccount: Option<nat>, viewingGoal: Option<nat>)

  /** `income` and `expenses` are the sums of their lists. */
  predicate Consistent(b: Board) {
    b.income == Total(b.incomeTransactions) && b.expenses == Total(b.expensesTransactions)
  }

  /** What a handler ends with: nothing to say, or the text of an `alert`. */
  datatype Notice = Quiet | Alert(message: Message)

  /** The answer to a save request: the stored record, `success: false`, or a failed request. */
  datatype Reply<T> = Stored(value: T) | NotStored | Failed


  /** `list.splice(i, 1)`: removes the entry at `i`, and nothing when there is none. */
  function Splice<T>(s: seq<T>, i: nat): (r: seq<T>)
    ensures i < |s| ==> |r| == |s| - 1 && forall k :: 0 <= k < |r| ==> r[k] == (if k < i then s[k] else s[k + 1])
    ensures i >= |s| ==> r == s
  {
    if i < |s| then s[..i] + s[i + 1..] else s
  }

  lemma TotalOne(t: Tx)
    ensures Total([t]) == t.amount
  {
    assert [t][..0] == [];
  }

  /** A sequence is the part before position `i`, the element there and the part after it, and so is an update at `i`. */
  lemma AroundIndex<T>(s: seq<T>, i: nat, t: T)
    requires i < |s|
    ensures s == s[..i] + [s[i]] + s[i + 1..]
    ensures s[i := t] == s[..i] + [t] + s[i + 1..]
  {
  }

  /** The total of three consecutive parts. */
  lemma TotalThree(a: seq<Tx>, t: Tx, b: seq<Tx>)
    ensures Total(a + [t] + b) == Total(a) + t.amount + Total(b)
  {
    TotalAppend(a + [t], b);
    TotalAppend(a, [t]);
    TotalOne(t);
  }

  /** Replacing one transaction changes the total by the difference of the amounts. */
  lemma TotalReplace(s: seq<Tx>, i: nat, t: Tx)
    requires i < |s|
    ensures Total(s[i := t]) == Total(s) - s[i].amount + t.amount
  {
    AroundIndex(s, i, t);
    TotalThree(s[..i], s[i], s[i + 1..]);
    TotalThree(s[..i], t, s[i + 1..]);
  }

  /** Removing one transaction takes its amount off the total. */
  lemma TotalSplice(s: seq<Tx>, i: nat)
    requires i < |s|
    ensures Total(Splice(s, i)) == Total(s) - s[i].amount
  {
    AroundIndex(s, i, s[i]);
    TotalThree(s[..i], s[i], s[i + 1..]);
    TotalAppend(s[..i], s[i + 1..]);
  }

  /** A server transaction: the record and its `transaction_type`. */
  datatype ServerTx = ServerTx(tx: Tx, kind: string)

  /** `txs.filter(t => t.transaction_type === kind).map(...)`. */
  function OfKind(txs: seq<ServerTx>, kind: string): (r: seq<Tx>)
    ensures |r| <= |txs|
  {
    if txs == [] then []
    else
      var rest := OfKind(txs[..|txs| - 1], kind);
      if txs[|txs| - 1].kind == kind then rest + [txs[|txs| - 1].tx] else rest
  }

  /** When every type is income or expense, every transaction goes to exactly one of the two lists. */
  lemma {:induction false} OfKindSplits(txs: seq<ServerTx>)
    requires forall i :: 0 <= i < |txs| ==> txs[i].kind == "income" || txs[i].kind == "expense"
    ensures |OfKind(txs, "income")| + |OfKind(txs, "expense")| == |txs|
    decreases |txs|
  {
    if txs != [] {
      OfKindSplits(txs[..|txs| - 1]);
    }
  }

  /** The three answers of `loadDataFromServer`; an absent list is one whose answer had `success: false`. */
  datatype Snapshot = Snapshot(accounts: Option<seq<Account>>, transactions: Option<seq<ServerTx>>, goals: Option<seq<Goal>>)

  /** `loadDataFromServer()`: the lists from the answers and their totals, or everything empty when a request fails. */
  function AfterLoad(b: Board, answer: Option<Snapshot>): Board {
    match answer
    case None =>
      b.(income := 0.0, expenses := 0.0, incomeTransactions := [], expensesTransactions := [], accounts := [], goals := [])
    case Some(snap) =>
      var txs := if snap.transactions.Some? then snap.transactions.value else [];
      var inc := OfKind(txs, "income");
      var exp := OfKind(txs, "expense");
      b.(accounts := if snap.accounts.Some? then snap.accounts.value else [],
         incomeTransactions := inc, expensesTransactions := exp,
         goals := if snap.goals.Some? then snap.goals.value else [],
         income := Total(inc), expenses := Total(exp))
  }

  /** After loading, the totals are those of the lists, and a failed load leaves nothing. */
  lemma LoadConsistent(b: Board, answer: Option<Snapshot>)
    ensures Consistent(AfterLoad(b, answer))
    ensures answer.None? ==> (AfterLoad(b, answer).income == 0.0 && AfterLoad(b, answer).incomeTransactions == []
      && AfterLoad(b, answer).accounts == [] && AfterLoad(b, answer).goals == [])
  {
  }

  /** `income = incomeTransactions.reduce(...)` and the reset of the editing index after saving income. */
  function IncomeSaved(b: Board, txs: seq<Tx>): Board {
    b.(incomeTransactions := txs, income := Total(txs), editingTransaction := None, editingIsIncome := None)
  }

  function ExpenseSaved(b: Board, txs: seq<Tx>): Board {
    b.(expensesTransactions := txs, expenses := Total(txs), editingTransaction := None, editingIsIncome := None)
  }

  /**
   * `addIncome()`: with an income being edited the entry at the editing
   * index is replaced by the stored record (a missing entry makes the
   * handler throw before the request), otherwise the stored record is
   * appended; unless the request failed, the income is summed again and
   * the editing index cleared.
   */
  function AfterAddIncome(b: Board, form: Result<TxRequest, Message>, reply: Reply<Tx>): (Board, Notice) {
    if form.Err? then (b, Alert(form.error))
    else if b.editingTransaction.Some? && b.editingIsIncome == Some(true) then
      var i := b.editingTransaction.value;
      if i >= |b.incomeTransactions| then (b, Alert(IncomeNotSaved))
      else
        match reply
        case Failed => (b, Alert(IncomeNotSaved))
        case NotStored => (IncomeSaved(b, b.incomeTransactions), Quiet)
        case Stored(t) => (IncomeSaved(b, b.incomeTransactions[i := t]), Quiet)
    else
      match reply
      case Failed => (b, Alert(IncomeNotSaved))
      case NotStored => (IncomeSaved(b, b.incomeTransactions), Quiet)
      case Stored(t) => (IncomeSaved(b, b.incomeTransactions + [t]), Quiet)
  }

  /** `addExpense()`: the same for expenses; an expense is edited when the editing flag is not `true`. */
  function AfterAddExpense(b: Board, form: Result<TxRequest, Message>, reply: Reply<Tx>): (Board, Notice) {
    if form.Err? then (b, Alert(form.error))
    else if b.editingTransaction.Some? && b.editingIsIncome != Some(true) then
      var i := b.editingTransaction.value;
      if i >= |b.expensesTransactions| then (b, Alert(ExpenseNotSaved))
      else
        match reply
        case Failed => (b, Alert(ExpenseNotSaved))
        case NotStored => (ExpenseSaved(b, b.expensesTransactions), Quiet)
        case Stored(t) => (ExpenseSaved(b, b.expensesTransactions[i := t]), Quiet)
    else
      match reply
      case Failed => (b, Alert(ExpenseNotSaved))
      case NotStored => (ExpenseSaved(b, b.expensesTransactions), Quiet)
      case Stored(t) => (ExpenseSaved(b, b.expensesTransactions + [t]), Quiet)
  }

  /**
   * A new income is appended and raises the income by its amount; an
   * edited one replaces its entry and the income changes by the difference;
   * a refused form or a failed request changes nothing. The expenses are
   * untouched and the totals stay the sums of their lists.
   */
  lemma AddIncomeEffect(b: Board, form: Result<TxRequest, Message>, reply: Reply<Tx>)
    requires Consistent(b)
    ensures var (after, notice) := AfterAddIncome(b, form, reply);
      Consistent(after)
      && after.expensesTransactions == b.expensesTransactions && after.accounts == b.accounts && after.goals == b.goals
      && (form.Err? ==> after == b && notice == Alert(form.error))
      && (form.Ok? && reply.Failed? ==> after == b && notice == Alert(IncomeNotSaved))
      && (form.Ok? && reply.Stored? && !(b.editingTransaction.Some? && b.editingIsIncome == Some(true)) ==>
            after.incomeTransactions == b.incomeTransactions + [reply.value]
            && after.income == b.income + reply.value.amount && after.editingTransaction == None)
      && (form.Ok? && reply.Stored? && b.editingTransaction.Some? && b.editingIsIncome == Some(true)
          && b.editingTransaction.value < |b.incomeTransactions| ==>
            var i := b.editingTransaction.value;
            after.incomeTransactions == b.incomeTransactions[i := reply.value]
            && after.income == b.income - b.incomeTransactions[i].amount + reply.value.amount)
  {
    if form.Ok? && reply.Stored? {
      var t := reply.value;
      if b.editingTransaction.Some? && b.editingIsIncome == Some(true) {
        if b.editingTransaction.value < |b.incomeTransactions| {
          TotalReplace(b.incomeTransactions, b.editingTransaction.value, t);
        }
      } else {
        TotalAppend(b.incomeTransactions, [t]);
        TotalOne(t);
      }
    }
  }

  /** The same for an expense. */
  lemma AddExpenseEffect(b: Board, form: Result<TxRequest, Message>, reply: Reply<Tx>)
    requires Consistent(b)
    ensures var (after, notice) := AfterAddExpense(b, form, reply);
      Consistent(after)
      && after.incomeTransactions == b.incomeTransactions && after.accounts == b.accounts && after.goals == b.goals
      && (form.Err? ==> after == b && notice == Alert(form.error))
      && (form.Ok? && reply.Failed? ==> after == b && notice == Alert(ExpenseNotSaved))
      && (form.Ok? && reply.Stored? && !(b.editingTransaction.Some? && b.editingIsIncome != Some(true)) ==>
            after.expensesTransactions == b.expensesTransactions + [reply.value]
            && after.expenses == b.expenses + reply.value.amount && after.editingTransaction == None)
      && (form.Ok? && reply.Stored? && b.editingTransaction.Some? && b.editingIsIncome != Some(true)
          && b.editingTransaction.value < |b.expensesTransactions| ==>
            var i := b.editingTransaction.value;
            after.expensesTransactions == b.expensesTransactions[i := reply.value]
            && after.expenses == b.expenses - b.expensesTransactions[i].amount + reply.value.amount)
  {
    if form.Ok? && reply.Stored? {
      var t := reply.value;
      if b.editingTransaction.Some? && b.editingIsIncome != Some(true) {
        if b.editingTransaction.value < |b.expensesTransactions| {
          TotalReplace(b.expensesTransactions, b.editingTransaction.value, t);
        }
      } else {
        TotalAppend(b.expensesTransactions, [t]);
        TotalOne(t);
      }
    }
  }

  /**
   * `saveAccountFromModal()`: a new account is appended; an edited one
   * takes the stored name, amount, type and description and keeps its id.
   * The editing index is left as it is.
   */
  function AfterSaveAccount(b: Board, form: Result<AccountRequest, Message>, reply: Reply<Account>): (Board, Notice) {
    if form.Err? then (b, Alert(form.error))
    else if b.editingAccount.None? then
      match reply
      case Failed => (b, Alert(AccountNotSaved))
      case NotStored => (b, Quiet)
      case Stored(a) => (b.(accounts := b.accounts + [a]), Quiet)
    else
      var i := b.editingAccount.value;
      if i >= |b.accounts| then (b, Alert(AccountNotSaved))
      else
        match reply
        case Failed => (b, Alert(AccountNotSaved))
        case NotStored => (b, Quiet)
        case Stored(a) =>
          (b.(accounts := b.accounts[i := b.accounts[i].(name := a.name, amount := a.amount, kind := a.kind, desc := a.desc)]), Quiet)
  }

  /** `saveGoalFromModal()`: a new goal is appended; an edited one takes the stored name and amounts and keeps its id. */
  function AfterSaveGoal(b: Board, form: Result<GoalRequest, Message>, reply: Reply<Goal>): (Board, Notice) {
    if form.Err? then (b, Alert(form.error))
    else if b.editingGoal.None? then
      match reply
      case Failed => (b, Alert(GoalNotSaved))
      case NotStored => (b, Quiet)
      case Stored(g) => (b.(goals := b.goals + [g]), Quiet)
    else
      var i := b.editingGoal.value;
      if i >= |b.goals| then (b, Alert(GoalNotSaved))
      else
        match reply
        case Failed => (b, Alert(GoalNotSaved))
        case NotStored => (b, Quiet)
        case Stored(g) =>
          (b.(goals := b.goals[i := b.goals[i].(name := g.name, targetAmount := g.targetAmount, currentAmount := g.currentAmount)]), Quiet)
  }

  /** Saving an account changes at most one entry of the accounts, or appends one, and nothing else. */
  lemma SaveAccountEffect(b: Board, form: Result<AccountRequest, Message>, reply: Reply<Account>)
    ensures var (after, notice) := AfterSaveAccount(b, form, reply);
      after == b.(accounts := after.accounts)
      && (form.Err? || reply.Failed? ==> after == b && notice.Alert?)
      && (form.Ok? && reply.Stored? && b.editingAccount.None? ==> after.accounts == b.accounts + [reply.value])
      && (form.Ok? && reply.Stored? && b.editingAccount.Some? && b.editingAccount.value < |b.accounts| ==>
            var i := b.editingAccount.value;
            |after.accounts| == |b.accounts| && after.accounts[i].id == b.accounts[i].id
            && after.accounts[i].name == reply.value.name && after.accounts[i].amount == reply.value.amount
            && forall k :: 0 <= k < |b.accounts| && k != i ==> after.accounts[k] == b.accounts[k])
  {
  }

  /** Saving a goal changes at most one entry of the goals, or appends one, and nothing else. */
  lemma SaveGoalEffect(b: Board, form: Result<GoalRequest, Message>, reply: Reply<Goal>)
    ensures var (after, notice) := AfterSaveGoal(b, form, reply);
      after == b.(goals := after.goals)
      && (form.Err? || reply.Failed? ==> after == b && notice.Alert?)
      && (form.Ok? && reply.Stored? && b.editingGoal.None? ==> after.goals == b.goals + [reply.value])
      && (form.Ok? && reply.Stored? && b.editingGoal.Some? && b.editingGoal.value < |b.goals| ==>
            var i := b.editingGoal.value;
            |after.goals| == |b.goals| && after.goals[i].id == b.goals[i].id
            && after.goals[i].targetAmount == reply.value.targetAmount
            && forall k :: 0 <= k < |b.goals| && k != i ==> after.goals[k] == b.goals[k])
  {
  }

  /**
   * `deleteAccountFromModal()`: nothing without an editing index or a
   * confirmation; otherwise, once the DELETE succeeds, the entry is spliced out.
   */
  function AfterDeleteAccount(b: Board, confirmed: bool, ok: bool): (Board, Notice) {
    if b.editingAccount.None? || !confirmed then (b, Quiet)
    else
      var i := b.editingAccount.value;
      if i >= |b.accounts| || !ok then (b, Alert(AccountNotDeleted))
      else (b.(accounts := Splice(b.accounts, i)), Quiet)
  }

  /**
   * The delete button of the transaction view: the entry at the viewing
   * index of the list the view flag names is spliced out, after a DELETE
   * that is sent only for an entry with an id; both totals are summed
   * again. A `null` viewing index reads no entry (`transactions[null]` is
   * `undefined`), so no DELETE is sent and none can fail, and it splices
   * at 0, as `splice(null, 1)` does.
   */
  function AfterDeleteTransaction(b: Board, confirmed: bool, ok: bool): (Board, Notice) {
    if !confirmed then (b, Quiet)
    else
      var isIncome := b.viewingIsIncome == Some(true);
      var list := if isIncome then b.incomeTransactions else b.expensesTransactions;
      var i := if b.viewingTransaction.Some? then b.viewingTransaction.value else 0;
      if b.viewingTransaction.Some? && i < |list| && list[i].id != 0 && !ok then (b, Alert(TransactionNotDeleted))
      else
        var inc := if isIncome then Splice(list, i) else b.incomeTransactions;
        var exp := if isIncome then b.expensesTransactions else Splice(list, i);
        (b.(incomeTransactions := inc, expensesTransactions := exp, income := Total(inc), expenses := Total(exp)), Quiet)
  }

  /**
   * The delete button of the goal view: the entry at the viewing index is
   * spliced out, after a DELETE sent only for an entry with an id. As for
   * transactions, a `null` viewing index sends nothing and splices at 0.
   */
  function AfterDeleteGoal(b: Board, confirmed: bool, ok: bool): (Board, Notice) {
    if !confirmed then (b, Quiet)
    else
      var i := if b.viewingGoal.Some? then b.viewingGoal.value else 0;
      if b.viewingGoal.Some? && i < |b.goals| && b.goals[i].id != 0 && !ok then (b, Alert(GoalNotDeleted))
      else (b.(goals := Splice(b.goals, i)), Quiet)
  }

  /**
   * A confirmed delete of a viewed transaction removes exactly that entry
   * and takes its amount off its total, leaving the other list alone; the
   * totals are the sums of the lists afterwards whatever happened.
   */
  lemma DeleteTransactionEffect(b: Board, confirmed: bool, ok: bool)
    requires Consistent(b)
    ensures var (after, _) := AfterDeleteTransaction(b, confirmed, ok);
      Consistent(after) && after.accounts == b.accounts && after.goals == b.goals
      && (!confirmed ==> after == b)
      && (confirmed && b.viewingTransaction.Some? && b.viewingIsIncome == Some(true)
          && b.viewingTransaction.value < |b.incomeTransactions| ==>
            var i := b.viewingTransaction.value;
            (b.incomeTransactions[i].id == 0 || ok) ==>
              after.incomeTransactions == b.incomeTransactions[..i] + b.incomeTransactions[i + 1..]
              && |after.incomeTransactions| == |b.incomeTransactions| - 1
              && after.income == b.income - b.incomeTransactions[i].amount
              && after.expensesTransactions == b.expensesTransactions)
      && (confirmed && b.viewingTransaction.Some? && b.viewingIsIncome != Some(true)
          && b.viewingTransaction.value < |b.expensesTransactions| ==>
            var i := b.viewingTransaction.value;
            (b.expensesTransactions[i].id == 0 || ok) ==>
              after.expensesTransactions == b.expensesTransactions[..i] + b.expensesTransactions[i + 1..]
              && |after.expensesTransactions| == |b.expensesTransactions| - 1
              && after.expenses == b.expenses - b.expensesTransactions[i].amount
              && after.incomeTransactions == b.incomeTransactions)
    ensures var (after, notice) := AfterDeleteTransaction(b, confirmed, ok);
      confirmed && b.viewingTransaction.None? ==>
        notice == Quiet
        && if b.viewingIsIncome == Some(true) then after.incomeTransactions == Splice(b.incomeTransactions, 0)
           else after.expensesTransactions == Splice(b.expensesTransactions, 0)
  {
    if confirmed && b.viewingTransaction.Some? {
      var i := b.viewingTransaction.value;
      if b.viewingIsIncome == Some(true) && i < |b.incomeTransactions| {
        TotalSplice(b.incomeTransactions, i);
      } else if b.viewingIsIncome != Some(true) && i < |b.expensesTransactions| {
        TotalSplice(b.expensesTransactions, i);
      }
    }
  }

  /** A confirmed, successful delete of an account or a goal removes exactly one entry; nothing else changes. */
  lemma DeleteRemovesOne(b: Board, confirmed: bool, ok: bool)
    ensures var (after, _) := AfterDeleteAccount(b, confirmed, ok);
      after == b.(accounts := after.accounts)
      && (b.editingAccount.None? || !confirmed ==> after == b)
      && (confirmed && ok && b.editingAccount.Some? && b.editingAccount.value < |b.accounts| ==>
            after.accounts == b.accounts[..b.editingAccount.value] + b.accounts[b.editingAccount.value + 1..])
    ensures var (after, _) := AfterDeleteGoal(b, confirmed, ok);
      after == b.(goals := after.goals)
      && (!confirmed ==> after == b)
      && (confirmed && ok && b.viewingGoal.Some? && b.viewingGoal.value < |b.goals| ==>
            after.goals == b.goals[..b.viewingGoal.value] + b.goals[b.viewingGoal.value + 1..]
            && |after.goals| == |b.goals| - 1)
      && (confirmed && b.viewingGoal.None? ==> after.goals == Splice(b.goals, 0))
    ensures var (_, notice) := AfterDeleteGoal(b, confirmed, ok);
      confirmed && b.viewingGoal.None? ==> notice == Quiet
  {
  }

  // ---------------------------------------------------------------------
  // clearSelectedData

  /** The boxes of the clear-data dialog. */
  datatype Ticks = Ticks(transactions: bool, accounts: bool, goals: bool, all: bool)

  /** The three groups, in the order the handler deletes them. */
  datatype Group = Transactions | Accounts | Goals

  predicate AnyTxId(ts: seq<Tx>) { exists i :: 0 <= i < |ts| && ts[i].id != 0 }

  predicate AnyAccountId(s: seq<Account>) { exists i :: 0 <= i < |s| && s[i].id != 0 }

  predicate AnyGoalId(s: seq<Goal>) { exists i :: 0 <= i < |s| && s[i].id != 0 }

  /**
   * `clearSelectedData()`. `failure` names the group in which a DELETE
   * fails, if any; it takes effect only when that group is being cleared
   * and has an entry with an id, since only those are sent. The groups
   * cleared before it stay cleared; it and the ones after it are kept.
   */
  function AfterClear(b: Board, ticks: Ticks, confirmed: bool, failure: Option<Group>): (Board, Notice) {
    if !ticks.all && !ticks.transactions && !ticks.accounts && !ticks.goals then (b, Alert(NothingSelected))
    else if !confirmed then (b, Quiet)
    else if (ticks.all || ticks.transactions) && failure == Some(Transactions)
      && (AnyTxId(b.incomeTransactions) || AnyTxId(b.expensesTransactions)) then (b, Alert(ClearFailed))
    else
      var b1 := if ticks.all || ticks.transactions
        then b.(income := 0.0, expenses := 0.0, incomeTransactions := [], expensesTransactions := [])
        else b;
      if (ticks.all || ticks.accounts) && failure == Some(Accounts) && AnyAccountId(b.accounts) then (b1, Alert(ClearFailed))
      else
        var b2 := if ticks.all || ticks.accounts then b1.(accounts := []) else b1;
        if (ticks.all || ticks.goals) && failure == Some(Goals) && AnyGoalId(b.goals) then (b2, Alert(ClearFailed))
        else
          var b3 := if ticks.all || ticks.goals then b2.(goals := []) else b2;
          (b3, Alert(Cleared))
  }

  /**
   * "Everything", confirmed and without a failure, empties all lists and
   * zeroes both totals; with no box ticked nothing is deleted; a group whose
   * box is not ticked is kept; the totals stay the sums of their lists.
   */
  lemma ClearEffect(b: Board, ticks: Ticks, confirmed: bool, failure: Option<Group>)
    requires Consistent(b)
    ensures var (after, notice) := AfterClear(b, ticks, confirmed, failure);
      Consistent(after)
      && (ticks.all && confirmed && failure.None? ==>
            after.incomeTransactions == [] && after.expensesTransactions == [] && after.accounts == [] && after.goals == []
            && after.income == 0.0 && after.expenses == 0.0 && notice == Alert(Cleared))
      && (!ticks.all && !ticks.transactions && !ticks.accounts && !ticks.goals ==> after == b && notice == Alert(NothingSelected))
      && (!confirmed ==> after == b)
      && (!ticks.all && !ticks.transactions ==> after.incomeTransactions == b.incomeTransactions && after.expensesTransactions == b.expensesTransactions)
      && (!ticks.all && !ticks.accounts ==> after.accounts == b.accounts)
      && (!ticks.all && !ticks.goals ==> after.goals == b.goals)
      && (confirmed && failure.None? && ticks.transactions ==> after.incomeTransactions == [] && after.expensesTransactions == [])
      && (confirmed && failure.None? && ticks.accounts ==> after.accounts == [])
      && (confirmed && failure.None? && ticks.goals ==> after.goals == [])
  {
  }

  // ---------------------------------------------------------------------
  // The page as an object

  /** The page's module-level variables, changed in place by its handlers. */
  class Dashboard {
    var income: real
    var expenses: real
    var incomeTransactions: seq<Tx>
    var expensesTransactions: seq<Tx>
    var accounts: seq<Account>
    var goals: seq<Goal>
    var editingTransaction: Option<nat>
    var editingIsIncome: Option<bool>
    var editingAccount: Option<nat>
    var editingGoal: Option<nat>
    var viewingTransaction: Option<nat>
    var viewingIsIncome: Option<bool>
    var viewingAccount: Option<nat>
    var viewingGoal: Option<nat>

    function State(): Board
      reads this
    {
      Board(income, expenses, incomeTransactions, expensesTransactions, accounts, goals,
            editingTransaction, editingIsIncome, editingAccount, editingGoal,
            viewingTransaction, viewingIsIncome, viewingAccount, viewingGoal)
    }

    /** The page as the script starts: everything 0, empty or `null`. */
    constructor()
      ensures State() == Board(0.0, 0.0, [], [], [], [], None, None, None, None, None, None, None, None)
      ensures Consistent(State())
    {
      income, expenses := 0.0, 0.0;
      incomeTransactions, expensesTransactions, accounts, goals := [], [], [], [];
      editingTransaction, editingIsIncome, editingAccount, editingGoal := None, None, None, None;
      viewingTransaction, viewingIsIncome, viewingAccount, viewingGoal := None, None, None, None;
    }

    method Load(answer: Option<Snapshot>)
      modifies this
      ensures State() == AfterLoad(old(State()), answer)
    {
      var loaded := AfterLoad(State(), answer);
      income, expenses := loaded.income, loaded.expenses;
      incomeTransactions, expensesTransactions := loaded.incomeTransactions, loaded.expensesTransactions;
      accounts, goals := loaded.accounts, loaded.goals;
    }

    /** The "income" and "expense" buttons: a new transaction, so no editing index. */
    method OpenForNewTransaction()
      modifies this
      ensures State() == old(State()).(editingTransaction := None, editingIsIncome := None)
    {
      editingTransaction := None;
      editingIsIncome := None;
    }

    method AddIncome(amount: Option<real>, name: string, date: When, reply: Reply<Tx>) returns (notice: Notice)
      modifies this
      ensures (State(), notice) == AfterAddIncome(old(State()), IncomeForm(amount, name, date), reply)
    {
      var form := IncomeForm(amount, name, date);
      if form.Err? {
        return Alert(form.error);
      }
      if editingTransaction.Some? && editingIsIncome == Some(true) {
        var i := editingTransaction.value;
        if i >= |incomeTransactions| || reply.Failed? {
          return Alert(IncomeNotSaved);
        }
        if reply.Stored? {
          incomeTransactions := incomeTransactions[i := reply.value];
        }
      } else {
        if reply.Failed? {
          return Alert(IncomeNotSaved);
        }
        if reply.Stored? {
          incomeTransactions := incomeTransactions + [reply.value];
        }
      }
      income := Total(incomeTransactions);
      editingTransaction := None;
      editingIsIncome := None;
      notice := Quiet;
    }

    method AddExpense(amount: Option<real>, name: string, category: string, date: When, reply: Reply<Tx>) returns (notice: Notice)
      modifies this
      ensures (State(), notice) == AfterAddExpense(old(State()), ExpenseForm(amount, name, category, date), reply)
    {
      var form := ExpenseForm(amount, name, category, date);
      if form.Err? {
        return Alert(form.error);
      }
      if editingTransaction.Some? && editingIsIncome != Some(true) {
        var i := editingTransaction.value;
        if i >= |expensesTransactions| || reply.Failed? {
          return Alert(ExpenseNotSaved);
        }
        if reply.Stored? {
          expensesTransactions := expensesTransactions[i := reply.value];
        }
      } else {
        if reply.Failed? {
          return Alert(ExpenseNotSaved);
        }
        if reply.Stored? {
          expensesTransactions := expensesTransactions + [reply.value];
        }
      }
      expenses := Total(expensesTransactions);
      editingTransaction := None;
      editingIsIncome := None;
      notice := Quiet;
    }

    /** `openAccountModalForNew()` and `openAccountModalForEdit(index)`, the latter only for an existing entry. */
    method OpenAccountModal(index: Option<int>)
      modifies this
      ensures index.None? ==> State() == old(State()).(editingAccount := None)
      ensures index.Some? && 0 <= index.value < |old(accounts)| ==> State() == old(State()).(editingAccount := Some(index.value))
      ensures index.Some? && !(0 <= index.value < |old(accounts)|) ==> State() == old(State())
    {
      if index.None? {
        editingAccount := None;
      } else if 0 <= index.value < |accounts| {
        editingAccount := Some(index.value);
      }
    }

    method SaveAccount(name: string, amount: Option<real>, kind: string, desc: string, reply: Reply<Account>) returns (notice: Notice)
      modifies this
      ensures (State(), notice) == AfterSaveAccount(old(State()), AccountForm(name, amount, kind, desc), reply)
    {
      var form := AccountForm(name, amount, kind, desc);
      if form.Err? {
        return Alert(form.error);
      }
      if editingAccount.Some? && editingAccount.value >= |accounts| {
        return Alert(AccountNotSaved);
      }
      match reply
      case Failed => notice := Alert(AccountNotSaved);
      case NotStored => notice := Quiet;
      case Stored(a) =>
        if editingAccount.None? {
          accounts := accounts + [a];
        } else {
          var i := editingAccount.value;
          accounts := accounts[i := accounts[i].(name := a.name, amount := a.amount, kind := a.kind, desc := a.desc)];
        }
        notice := Quiet;
    }

    method DeleteAccount(confirmed: bool, ok: bool) returns (notice: Notice)
      modifies this
      ensures (State(), notice) == AfterDeleteAccount(old(State()), confirmed, ok)
    {
      if editingAccount.None? || !confirmed {
        return Quiet;
      }
      var i := editingAccount.value;
      if i >= |accounts| || !ok {
        return Alert(AccountNotDeleted);
      }
      accounts := Splice(accounts, i);
      notice := Quiet;
    }

    /** The delete button of the account view: the viewed account becomes the edited one, then it is deleted. */
    method DeleteViewedAccount(confirmed: bool, ok: bool) returns (notice: Notice)
      modifies this
      ensures (State(), notice) == AfterDeleteAccount(old(State()).(editingAccount := old(viewingAccount)), confirmed, ok)
    {
      editingAccount := viewingAccount;
      notice := DeleteAccount(confirmed, ok);
    }

    /** `openGoalModalForNew()` and `openGoalModalForEdit(index)`. */
    method OpenGoalModal(index: Option<int>)
      modifies this
      ensures index.None? ==> State() == old(State()).(editingGoal := None)
      ensures index.Some? && 0 <= index.value < |old(goals)| ==> State() == old(State()).(editingGoal := Some(index.value))
      ensures index.Some? && !(0 <= index.value < |old(goals)|) ==> State() == old(State())
    {
      if index.None? {
        editingGoal := None;
      } else if 0 <= index.value < |goals| {
        editingGoal := Some(index.value);
      }
    }

    method SaveGoal(name: string, target: Option<real>, current: Option<real>, reply: Reply<Goal>) returns (notice: Notice)
      modifies this
      ensures (State(), notice) == AfterSaveGoal(old(State()), GoalForm(name, target, current), reply)
    {
      var form := GoalForm(name, target, current);
      if form.Err? {
        return Alert(form.error);
      }
      if editingGoal.Some? && editingGoal.value >= |goals| {
        return Alert(GoalNotSaved);
      }
      match reply
      case Failed => notice := Alert(GoalNotSaved);
      case NotStored => notice := Quiet;
      case Stored(g) =>
        if editingGoal.None? {
          goals := goals + [g];
        } else {
          var i := editingGoal.value;
          goals := goals[i := goals[i].(name := g.name, targetAmount := g.targetAmount, currentAmount := g.currentAmount)];
        }
        notice := Quiet;
    }

    /** `openTransactionView(index, isIncome)`, `openAccountView(index)`, `openGoalView(index)`: only an existing entry is viewed. */
    method ViewTransaction(index: int, isIncome: bool)
      modifies this
      ensures var list := if isIncome then old(incomeTransactions) else old(expensesTransactions);
        State() == if 0 <= index < |list| then old(State()).(viewingTransaction := Some(index), viewingIsIncome := Some(isIncome))
                   else old(State())
    {
      var list := if isIncome then incomeTransactions else expensesTransactions;
      if 0 <= index < |list| {
        viewingTransaction := Some(index);
        viewingIsIncome := Some(isIncome);
      }
    }

    method ViewAccount(index: int)
      modifies this
      ensures State() == if 0 <= index < |old(accounts)| then old(State()).(viewingAccount := Some(index)) else old(State())
    {
      if 0 <= index < |accounts| {
        viewingAccount := Some(index);
      }
    }

    method ViewGoal(index: int)
      modifies this
      ensures State() == if 0 <= index < |old(goals)| then old(State()).(viewingGoal := Some(index)) else old(State())
    {
      if 0 <= index < |goals| {
        viewingGoal := Some(index);
      }
    }

    /** The edit button of the transaction view: the viewed transaction becomes the edited one. */
    method EditViewedTransaction()
      modifies this
      ensures State() == old(State()).(editingTransaction := old(viewingTransaction),
                                       editingIsIncome := Some(old(viewingIsIncome) == Some(true)))
    {
      editingTransaction := viewingTransaction;
      editingIsIncome := Some(viewingIsIncome == Some(true));
    }

    method DeleteViewedTransaction(confirmed: bool, ok: bool) returns (notice: Notice)
      modifies this
      ensures (State(), notice) == AfterDeleteTransaction(old(State()), confirmed, ok)
    {
      if !confirmed {
        return Quiet;
      }
      var isIncome := viewingIsIncome == Some(true);
      var list := if isIncome then incomeTransactions else expensesTransactions;
      var i := if viewingTransaction.Some? then viewingTransaction.value else 0;
      if viewingTransaction.Some? && i < |list| && list[i].id != 0 && !ok {
        return Alert(TransactionNotDeleted);
      }
      if isIncome {
        StoreLists(Splice(list, i), expensesTransactions);
      } else {
        StoreLists(incomeTransactions, Splice(list, i));
      }
      notice := Quiet;
    }

    /** Both transaction lists replaced and both totals summed again. */
    method StoreLists(inc: seq<Tx>, exp: seq<Tx>)
      modifies this
      ensures State() == old(State()).(incomeTransactions := inc, expensesTransactions := exp, income := Total(inc), expenses := Total(exp))
    {
      incomeTransactions, expensesTransactions := inc, exp;
      income, expenses := Total(inc), Total(exp);
    }

    method DeleteViewedGoal(confirmed: bool, ok: bool) returns (notice: Notice)
      modifies this
      ensures (State(), notice) == AfterDeleteGoal(old(State()), confirmed, ok)
    {
      if !confirmed {
        return Quiet;
      }
      var i := if viewingGoal.Some? then viewingGoal.value else 0;
      if viewingGoal.Some? && i < |goals| && goals[i].id != 0 && !ok {
        return Alert(GoalNotDeleted);
      }
      goals := Splice(goals, i);
      notice := Quiet;
    }

    method ClearSelected(ticks: Ticks, confirmed: bool, failure: Option<Group>) returns (notice: Notice)
      modifies this
      ensures (State(), notice) == AfterClear(old(State()), ticks, confirmed, failure)
    {
      if !ticks.all && !ticks.transactions && !ticks.accounts && !ticks.goals {
        return Alert(NothingSelected);
      }
      if !confirmed {
        return Quiet;
      }
      var hadAccountId := AnyAccountId(accounts);
      var hadGoalId := AnyGoalId(goals);
      if ticks.all || ticks.transactions {
        if failure == Some(Transactions) && (AnyTxId(incomeTransactions) || AnyTxId(expensesTransactions)) {
          return Alert(ClearFailed);
        }
        ClearTransactions();
      }
      if ticks.all || ticks.accounts {
        if failure == Some(Accounts) && hadAccountId {
          return Alert(ClearFailed);
        }
        ClearAccounts();
      }
      if ticks.all || ticks.goals {
        if failure == Some(Goals) && hadGoalId {
          return Alert(ClearFailed);
        }
        ClearGoals();
      }
      notice := Alert(Cleared);
    }

    /** Both transaction lists emptied and both totals reset. */
    method ClearTransactions()
      modifies this
      ensures State() == old(State()).(income := 0.0, expenses := 0.0, incomeTransactions := [], expensesTransactions := [])
    {
      income, expenses := 0.0, 0.0;
      incomeTransactions, expensesTransactions := [], [];
    }

    method ClearAccounts()
      modifies this
      ensures State() == old(State()).(accounts := [])
    {
      accounts := [];
    }

    method ClearGoals()
      modifies this
      ensures State() == old(State()).(goals := [])
    {
      goals := [];
    }
  }

  // ---------------------------------------------------------------------
  // escapeHtml

  /** The replacement of one character: `&amp`, `&lt`, `&gt`, `&quot` and `&#39`, written without `;`. */
  function EntityOf(c: char): string {
    if c == '&' then "&amp"
    else if c == '<' then "&lt"
    else if c == '>' then "&gt"
    else if c == '"' then "&quot"
    else if c == '\'' then "&#39"
    else [c]
  }

  /** `escapeHtml(str)`: every special character replaced by its entity; the empty string stays empty. */
  function EscapeHtml(s: string): (r: string)
    ensures |r| >= |s|
    ensures forall k :: 0 <= k < |r| ==> r[k] != '<' && r[k] != '>' && r[k] != '"' && r[k] != '\''
  {
    if s == [] then [] else EntityOf(s[0]) + EscapeHtml(s[1..])
  }

  /** The five characters `escapeHtml` replaces. */
  predicate Escaped(c: char) { c == '&' || c == '<' || c == '>' || c == '"' || c == '\'' }

  predicate IsAsciiLetter(c: char) { 'a' <= c <= 'z' || 'A' <= c <= 'Z' }

  // ---------------------------------------------------------------------
  // How the page shows the escaped text

  /*
   * The escaped names are placed with `innerHTML` as the text of a `<p>` or
   * a `<div>` (script.js:639, 672, 771), so the HTML parser reads them as
   * text in the body.  The model follows the tokenizer's rules for character
   * references in text (section 13.2.5.72-13.2.5.80 of the WHATWG HTML
   * standard) and the input-stream preprocessing (section 13.2.3.5): a named
   * reference is the LONGEST name of the table that matches, and the legacy
   * names `amp`, `lt`, `gt` and `quot` match without `;`; a decimal reference
   * takes EVERY digit after `&#` and an optional `;`.  Where the answer would
   * need more of the standard's tables it is `None`.
   */

  /** The names of the table that begin with `lt` or `gt` and are longer, each after those two letters. */
  const LtLonger: seq<string> := ["cc;", "cir;", "dot;", "hree;", "imes;", "larr;", "quest;", "rPar;", "ri;", "rie;", "rif;"]
  const GtLonger: seq<string> := ["cc;", "cir;", "dot;", "lPar;", "quest;", "rapprox;", "rarr;", "rdot;", "reqless;", "reqqless;", "rless;", "rsim;"]

  predicate ContinuesName(rest: string, longer: seq<string>) {
    exists k :: 0 <= k < |longer| && StartsWith(rest, longer[k])
  }

  /** The number of decimal digits `s` begins with. */
  function DigitRun(s: string): (k: nat)
    ensures k <= |s| && forall j :: 0 <= j < k ==> IsDigit(s[j])
  {
    if s != [] && IsDigit(s[0]) then 1 + DigitRun(s[1..]) else 0
  }

  /**
   * The character a decimal reference stands for: U+FFFD for 0, for a
   * surrogate and beyond U+10FFFF; `None` for 0x80-0x9F, which the tokenizer
   * maps through a windows-1252 table that is not part of this model.
   */
  function NumericChar(n: nat): Option<char> {
    if n == 0 || n > 0x10FFFF || 0xD800 <= n <= 0xDFFF then Some(0xFFFD as char)
    else if 0x80 <= n <= 0x9F then None
    else Some(n as char)
  }

  /** One `;` at `k`, taken as the end of a reference. */
  function SemicolonAt(s: string, k: nat): nat
    requires k <= |s|
  {
    if k < |s| && s[k] == ';' then 1 else 0
  }

  /** What an `&` at the start of `s` is read as. */
  datatype Reference =
    | Literal                     // the `&` is plain text
    | Stands(c: char, len: nat)   // the first `len` characters stand for `c`
    | Unmodelled                  // the answer needs more of the table

  /** `&#`: every digit that follows and an optional `;`; `&#x` and `&#X` begin a hexadecimal reference. */
  function NumericReferenceAt(s: string): (r: Reference)
    requires |s| >= 2 && s[0] == '&' && s[1] == '#'
    ensures r.Stands? ==> 3 <= r.len <= |s|
  {
    if |s| >= 3 && (s[2] == 'x' || s[2] == 'X') then Unmodelled
    else
      var d := DigitRun(s[2..]);
      if d == 0 then Literal
      else
        assert AllDigits(s[2..2 + d]) by { assert forall j :: 0 <= j < d ==> s[2..2 + d][j] == s[2..][j]; }
        match NumericChar(DigitsValue(s[2..2 + d]))
        case None => Unmodelled
        case Some(c) => Stands(c, 2 + d + SemicolonAt(s, 2 + d))
  }

  /** A name: the legacy names match without `;`, and a `;` after them is taken too. */
  function NamedReferenceAt(s: string): (r: Reference)
    requires s != [] && s[0] == '&'
    ensures r.Stands? ==> 3 <= r.len <= |s|
  {
    if StartsWith(s, "&amp") then Stands('&', 4 + SemicolonAt(s, 4))
    else if StartsWith(s, "&lt") then
      if ContinuesName(s[3..], LtLonger) then Unmodelled else Stands('<', 3 + SemicolonAt(s, 3))
    else if StartsWith(s, "&gt") then
      if ContinuesName(s[3..], GtLonger) then Unmodelled else Stands('>', 3 + SemicolonAt(s, 3))
    else if StartsWith(s, "&quot") then Stands('"', 5 + SemicolonAt(s, 5))
    else if |s| >= 2 && IsAsciiLetter(s[1]) then Unmodelled
    else Literal
  }

  function ReferenceAt(s: string): (r: Reference)
    requires s != [] && s[0] == '&'
    ensures r.Stands? ==> 2 <= r.len <= |s|
  {
    if |s| >= 2 && s[1] == '#' then NumericReferenceAt(s) else NamedReferenceAt(s)
  }

  function Prepend(c: char, o: Option<string>): Option<string> {
    if o.None? then None else Some([c] + o.value)
  }

  /**
   * The text the page shows for the markup `s` placed as the content of an
   * element in the body: NUL is dropped, CR and CR LF become LF, and each
   * character reference is replaced by its character.
   */
  function BrowserText(s: string): Option<string>
    decreases |s|
  {
    if s == [] then Some([])
    else if s[0] == '\0' then BrowserText(s[1..])
    else if s[0] == '\r' then
      Prepend('\n', if |s| >= 2 && s[1] == '\n' then BrowserText(s[2..]) else BrowserText(s[1..]))
    else if s[0] != '&' then Prepend(s[0], BrowserText(s[1..]))
    else
      match ReferenceAt(s)
      case Literal => Prepend('&', BrowserText(s[1..]))
      case Unmodelled => None
      case Stands(c, n) => Prepend(c, BrowserText(s[n..]))
  }

  /**
   * The text whose escaped form the page shows unchanged: no NUL or CR,
   * no `;` right after a replaced character, no digit right after `'`, and
   * no `<` or `>` followed by the rest of a longer name of the table.
   */
  predicate ShownAsWritten(s: string) {
    && (forall k :: 0 <= k < |s| ==> s[k] != '\0' && s[k] != '\r')
    && (forall k :: 0 <= k < |s| - 1 ==> Escaped(s[k]) ==> s[k + 1] != ';')
    && (forall k :: 0 <= k < |s| - 1 ==> s[k] == '\'' ==> !IsDigit(s[k + 1]))
    && (forall k :: 0 <= k < |s| ==> s[k] == '<' ==> !ContinuesName(s[k + 1..], LtLonger))
    && (forall k :: 0 <= k < |s| ==> s[k] == '>' ==> !ContinuesName(s[k + 1..], GtLonger))
  }

  /** The escaped text begins with `&` where the text begins with a replaced character, and with that character otherwise. */
  lemma EscapeHead(t: string)
    requires t != []
    ensures EscapeHtml(t) != [] && EscapeHtml(t)[0] == (if Escaped(t[0]) then '&' else t[0])
  {
    assert EscapeHtml(t) == EntityOf(t[0]) + EscapeHtml(t[1..]);
  }

  /** A word without `&` begins the escaped text only where it begins the text. */
  lemma {:induction false} EscapeKeepsPlainPrefix(t: string, w: string)
    requires AmpFree(w)
    requires StartsWith(EscapeHtml(t), w)
    ensures StartsWith(t, w)
    decreases |w|
  {
    if w != [] {
      var e := EscapeHtml(t);
      assert t != [];
      EscapeHead(t);
      assert !Escaped(t[0]) by { assert e[0] == w[0]; }
      assert e == [t[0]] + EscapeHtml(t[1..]);
      assert StartsWith(EscapeHtml(t[1..]), w[1..]) by {
        assert EscapeHtml(t[1..])[..|w| - 1] == e[..|w|][1..];
      }
      EscapeKeepsPlainPrefix(t[1..], w[1..]);
      assert t[..|w|] == [t[0]] + t[1..][..|w| - 1];
    }
  }

  predicate AmpFree(w: string) { forall j :: 0 <= j < |w| ==> w[j] != '&' }

  /** The longer names are made of letters and `;`. */
  lemma LongerNamesAmpFree(longer: seq<string>)
    requires longer == LtLonger || longer == GtLonger
    ensures forall k :: 0 <= k < |longer| ==> AmpFree(longer[k])
  {
  }

  /** So they continue the escaped text only where they continue the text. */
  lemma EscapeKeepsLongerNames(t: string, longer: seq<string>)
    requires longer == LtLonger || longer == GtLonger
    ensures ContinuesName(EscapeHtml(t), longer) ==> ContinuesName(t, longer)
  {
    if ContinuesName(EscapeHtml(t), longer) {
      var k :| 0 <= k < |longer| && StartsWith(EscapeHtml(t), longer[k]);
      LongerNamesAmpFree(longer);
      EscapeKeepsPlainPrefix(t, longer[k]);
    }
  }

  /** A reference the tokenizer reads as `c` shows `c` and leaves the rest to be read. */
  lemma ShowReference(s: string, c: char, n: nat)
    requires s != [] && s[0] == '&' && ReferenceAt(s) == Stands(c, n)
    ensures BrowserText(s) == Prepend(c, BrowserText(s[n..]))
  {
  }

  /** `&#39` is read as `'` when no digit follows, together with the `;` that may follow. */
  lemma ReadQuoteEntity(rest: string, semi: nat)
    requires semi <= 1 && (semi == 1 <==> rest != [] && rest[0] == ';')
    requires rest == [] || !IsDigit(rest[0])
    ensures ReferenceAt("&#39" + rest) == Stands('\'', 4 + semi)
  {
    var s := "&#39" + rest;
    assert s[1] == '#' && s[2] == '3';
    var u := s[2..];
    assert u == "39" + rest;
    assert u[1..] == "9" + rest && u[1..][1..] == rest;
    assert DigitRun(rest) == 0;
    assert DigitRun(u) == 2;
    assert s[2..4] == "39";
    assert DigitsValue("39") == 39 by {
      assert "39"[..1] == "3";
      assert "3"[..0] == "";
    }
    assert SemicolonAt(s, 4) == semi by { assert s[4..] == rest; }
    assert NumericReferenceAt(s) == Stands('\'', 4 + semi);
  }

  /** `&lt` and `&gt` are read as `<` and `>` when no longer name follows, together with the `;` that may follow. */
  lemma ReadAngleEntity(c: char, rest: string, semi: nat)
    requires c == '<' || c == '>'
    requires semi <= 1 && (semi == 1 <==> rest != [] && rest[0] == ';')
    requires !ContinuesName(rest, if c == '<' then LtLonger else GtLonger)
    ensures ReferenceAt(EntityOf(c) + rest) == Stands(c, 3 + semi)
  {
    var s := EntityOf(c) + rest;
    assert s[3..] == rest;
    assert SemicolonAt(s, 3) == semi;
    if c == '<' {
      assert s[1] == 'l' && s[..3] == "&lt";
    } else {
      assert s[1] == 'g' && s[..3] == "&gt";
    }
    assert NamedReferenceAt(s) == Stands(c, 3 + semi);
  }

  /** `&amp` and `&quot` are read as `&` and `"`, together with the `;` that may follow. */
  lemma ReadLegacyName(rest: string, name: string, c: char, semi: nat)
    requires (name, c) == ("amp", '&') || (name, c) == ("quot", '"')
    requires semi <= 1 && (semi == 1 <==> rest != [] && rest[0] == ';')
    ensures ReferenceAt("&" + name + rest) == Stands(c, 1 + |name| + semi)
  {
    var s := "&" + name + rest;
    assert s[..1 + |name|] == "&" + name;
    assert s[1 + |name|..] == rest;
    assert SemicolonAt(s, 1 + |name|) == semi;
    if name == "amp" {
      assert s[1] == 'a';
    } else {
      assert s[1] == 'q';
    }
    assert NamedReferenceAt(s) == Stands(c, 1 + |name| + semi);
  }

  /** `&amp` and `&quot` show their character; the text goes on after the `;` that may follow. */
  lemma ShowLegacyName(c: char, rest: string, semi: nat)
    requires c == '&' || c == '"'
    requires semi <= 1 && (semi == 1 <==> rest != [] && rest[0] == ';')
    ensures BrowserText(EntityOf(c) + rest) == Prepend(c, BrowserText(rest[semi..]))
  {
    var name := if c == '&' then "amp" else "quot";
    assert EntityOf(c) == "&" + name;
    ReadLegacyName(rest, name, c, semi);
    var s := EntityOf(c) + rest;
    ShowReference(s, c, 1 + |name| + semi);
    assert s[1 + |name| + semi..] == rest[semi..];
  }

  /** `&lt` and `&gt` show their character when no longer name follows. */
  lemma ShowAngleEntity(c: char, rest: string, semi: nat)
    requires c == '<' || c == '>'
    requires semi <= 1 && (semi == 1 <==> rest != [] && rest[0] == ';')
    requires !ContinuesName(rest, if c == '<' then LtLonger else GtLonger)
    ensures BrowserText(EntityOf(c) + rest) == Prepend(c, BrowserText(rest[semi..]))
  {
    ReadAngleEntity(c, rest, semi);
    var s := EntityOf(c) + rest;
    ShowReference(s, c, 3 + semi);
    assert s[3 + semi..] == rest[semi..];
  }

  /** `&#39` shows `'` when no digit follows. */
  lemma ShowQuoteEntity(rest: string, semi: nat)
    requires semi <= 1 && (semi == 1 <==> rest != [] && rest[0] == ';')
    requires rest == [] || !IsDigit(rest[0])
    ensures BrowserText(EntityOf('\'') + rest) == Prepend('\'', BrowserText(rest[semi..]))
  {
    ReadQuoteEntity(rest, semi);
    var s := "&#39" + rest;
    assert EntityOf('\'') + rest == s;
    ShowReference(s, '\'', 4 + semi);
    assert s[4 + semi..] == rest[semi..];
  }

  /** One replaced character reads back as itself when what follows does not continue its entity. */
  lemma ShowEntity(c: char, rest: string)
    requires c != '\0' && c != '\r'
    requires rest != [] && Escaped(c) ==> rest[0] != ';'
    requires rest != [] && c == '\'' ==> !IsDigit(rest[0])
    requires c == '<' ==> !ContinuesName(rest, LtLonger)
    requires c == '>' ==> !ContinuesName(rest, GtLonger)
    ensures BrowserText(EntityOf(c) + rest) == Prepend(c, BrowserText(rest))
  {
    assert rest[0..] == rest;
    if c == '&' || c == '"' {
      ShowLegacyName(c, rest, 0);
    } else if c == '<' || c == '>' {
      ShowAngleEntity(c, rest, 0);
    } else if c == '\'' {
      ShowQuoteEntity(rest, 0);
    } else {
      var s := [c] + rest;
      assert s[0] == c && s[1..] == rest;
    }
  }

  /** The escaped text is shown as the text itself whenever nothing after a replaced character continues its entity. */
  lemma {:induction false} EscapeShownAsWritten(s: string)
    requires ShownAsWritten(s)
    ensures BrowserText(EscapeHtml(s)) == Some(s)
    decreases |s|
  {
    if s != [] {
      var tail := s[1..];
      var rest := EscapeHtml(tail);
      assert ShownAsWritten(tail) by {
        forall k | 0 <= k < |tail| ensures tail[k] == s[k + 1] && tail[k + 1..] == s[k + 2..] { }
      }
      if tail != [] {
        EscapeHead(tail);
        assert s[1] == tail[0];
      }
      EscapeKeepsLongerNames(tail, LtLonger);
      EscapeKeepsLongerNames(tail, GtLonger);
      ShowEntity(s[0], rest);
      EscapeShownAsWritten(tail);
      assert [s[0]] + tail == s;
    }
  }

  /** A `;` after `&` is taken into the entity, so the page shows `&` for the name `&;`. */
  lemma AmpSemicolonMisread()
    ensures EscapeHtml("&;") == "&amp;"
    ensures BrowserText(EscapeHtml("&;")) == Some("&")
  {
    var s := "&amp;";
    assert EscapeHtml(";") == ";" by { assert EscapeHtml(";"[1..]) == []; }
    assert EscapeHtml("&;") == "&amp" + ";" by { assert "&;"[1..] == ";"; }
    assert s == "&" + "amp" + ";";
    ReadLegacyName(";", "amp", '&', 1);
    ShowReference(s, '&', 5);
    assert s[5..] == [] && BrowserText(s[5..]) == Some([]);
    assert "&amp" + ";" == s;
    assert ['&'] + [] == "&";
  }

  /** `&#395` is one reference, to U+018B. */
  lemma Read395()
    ensures ReferenceAt("&#395") == Stands(0x18B as char, 5)
  {
    var s := "&#395";
    var u := s[2..];
    assert s[1] == '#' && s[2] == '3';
    assert u == "395" && s[2..5] == u;
    assert u[1..] == "95" && u[1..][1..] == "5" && u[1..][1..][1..] == [];
    assert DigitRun(u[1..][1..]) == 1 && DigitRun(u[1..]) == 2 && DigitRun(u) == 3;
    assert u[..2] == "39" && u[..2][..1] == "3" && u[..2][..1][..0] == [];
    assert DigitsValue("3") == 3;
    assert DigitsValue("39") == 39;
    assert DigitsValue(u) == 395;
    assert SemicolonAt(s, 5) == 0;
    assert NumericReferenceAt(s) == Stands(0x18B as char, 5);
  }

  /** A digit after `'` continues the decimal reference, so the page shows U+018B for the name `'5`. */
  lemma QuoteDigitMisread()
    ensures EscapeHtml("'5") == "&#395"
    ensures BrowserText(EscapeHtml("'5")) == Some([0x18B as char])
  {
    var s := "&#395";
    assert EscapeHtml("5") == "5" by { assert EscapeHtml("5"[1..]) == []; }
    assert EscapeHtml("'5") == "&#39" + "5" by { assert "'5"[1..] == "5"; }
    Read395();
    ShowReference(s, 0x18B as char, 5);
    assert s[5..] == [] && BrowserText(s[5..]) == Some([]);
    assert "&#39" + "5" == s;
    assert [0x18B as char] + [] == [0x18B as char];
  }

  /** The replacement of one character with the closing `;` the standard gives every reference. */
  function TerminatedEntityOf(c: char): string {
    if c == '&' then "&amp;"
    else if c == '<' then "&lt;"
    else if c == '>' then "&gt;"
    else if c == '"' then "&quot;"
    else if c == '\'' then "&#39;"
    else [c]
  }

  /** `escapeHtml` with every entity closed by `;`. */
  function EscapeHtmlTerminated(s: string): (r: string)
    ensures |r| >= |s|
    ensures forall k :: 0 <= k < |r| ==> r[k] != '<' && r[k] != '>' && r[k] != '"' && r[k] != '\''
  {
    if s == [] then [] else TerminatedEntityOf(s[0]) + EscapeHtmlTerminated(s[1..])
  }

  /** No longer name of the table continues with `;`. */
  lemma SemicolonEndsName(rest: string)
    ensures !ContinuesName(";" + rest, LtLonger) && !ContinuesName(";" + rest, GtLonger)
  {
    var s := ";" + rest;
    forall k | 0 <= k < |LtLonger| ensures !StartsWith(s, LtLonger[k]) {
      var w := LtLonger[k];
      assert w in LtLonger;
      assert w != [] && w[0] != ';';
      if |w| <= |s| { assert s[..|w|][0] == ';'; }
    }
    forall k | 0 <= k < |GtLonger| ensures !StartsWith(s, GtLonger[k]) {
      var w := GtLonger[k];
      assert w in GtLonger;
      assert w != [] && w[0] != ';';
      if |w| <= |s| { assert s[..|w|][0] == ';'; }
    }
  }

  /** A closed entity reads back as its character whatever follows it. */
  lemma ShowTerminatedEntity(c: char, rest: string)
    requires c != '\0' && c != '\r'
    ensures BrowserText(TerminatedEntityOf(c) + rest) == Prepend(c, BrowserText(rest))
  {
    var more := ";" + rest;
    assert more[1..] == rest;
    if Escaped(c) {
      assert TerminatedEntityOf(c) + rest == EntityOf(c) + more;
      if c == '&' || c == '"' {
        ShowLegacyName(c, more, 1);
      } else if c == '<' || c == '>' {
        SemicolonEndsName(rest);
        ShowAngleEntity(c, more, 1);
      } else {
        ShowQuoteEntity(more, 1);
      }
    } else {
      var s := [c] + rest;
      assert s[0] == c && s[1..] == rest;
    }
  }

  /** With closed entities the page shows every text without NUL and CR as it is. */
  lemma {:induction false} EscapeTerminatedRoundTrip(s: string)
    requires forall k :: 0 <= k < |s| ==> s[k] != '\0' && s[k] != '\r'
    ensures BrowserText(EscapeHtmlTerminated(s)) == Some(s)
    decreases |s|
  {
    if s != [] {
      ShowTerminatedEntity(s[0], EscapeHtmlTerminated(s[1..]));
      EscapeTerminatedRoundTrip(s[1..]);
      assert [s[0]] + s[1..] == s;
    }
  }
}
