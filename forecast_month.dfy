/**
 * The month view of the forecast page (forecast/static/forecast/script.js):
 * the month summary and its end-of-month projection, the status of each
 * budget category, the budget bars and the day-by-day cash flow, all for
 * the month on screen (`currentMonth`, given here as a year and a month
 * 1..12).
 */
module ForecastMonth {
  import opened Wrappers
  import opened Calendar
  import opened ForecastScript

  /** `transactions.filter(p)`: the entries `p` accepts, in their order. */
  function Where(ts: seq<Tx>, p: Tx -> bool): (r: seq<Tx>)
    ensures |r| <= |ts|
  {
    if ts == [] then []
    else
      var rest := Where(ts[..|ts| - 1], p);
      if p(ts[|ts| - 1]) then rest + [ts[|ts| - 1]] else rest
  }

  /** What two filters that never accept the same entry keep adds up to what their union keeps. */
  lemma {:induction false} WhereSplit(ts: seq<Tx>, p: Tx -> bool, q: Tx -> bool, r: Tx -> bool)
    requires forall t :: p(t) == (q(t) || r(t))
    requires forall t :: !(q(t) && r(t))
    ensures Total(Where(ts, p)) == Total(Where(ts, q)) + Total(Where(ts, r))
    decreases |ts|
  {
    if ts != [] {
      WhereSplit(ts[..|ts| - 1], p, q, r);
    }
  }

  /** Filters that accept the same entries keep the same list. */
  lemma {:induction false} WhereSame(ts: seq<Tx>, p: Tx -> bool, q: Tx -> bool)
    requires forall t :: p(t) == q(t)
    ensures Where(ts, p) == Where(ts, q)
    decreases |ts|
  {
    if ts != [] {
      WhereSame(ts[..|ts| - 1], p, q);
    }
  }

  /** A filter that accepts none of the entries keeps nothing. */
  lemma {:induction false} WhereNone(ts: seq<Tx>, p: Tx -> bool)
    requires forall i :: 0 <= i < |ts| ==> !p(ts[i])
    ensures Where(ts, p) == []
    decreases |ts|
  {
    if ts != [] {
      WhereNone(ts[..|ts| - 1], p);
    }
  }

  // ---------------------------------------------------------------------
  // The month window

  /** `tDate.getMonth()` and `tDate.getFullYear()` name the given month; an unparsable date names none. */
  predicate InMonth(t: Tx, y: int, m: int) {
    t.date.Some? && t.date.value.date.year == y && t.date.value.date.month == m
  }

  /** `new Date(y, m - 1, 1)`: 00:00 of the first day of the month. */
  function MonthStart(y: int, m: int): int
    requires 1 <= m <= 12
  {
    DayStart(DayNumber(FirstOfMonth(y, m)))
  }

  /** `new Date(y, m, 0)`: 00:00 of the LAST day of the month, not its end. */
  function MonthEndAsWritten(y: int, m: int): int
    requires 1 <= m <= 12
  {
    DayStart(DayNumber(LastOfMonth(y, m)))
  }

  /** `tDate >= monthStart && tDate <= monthEnd`, the window of the summary and of the budget filters. */
  predicate InWindowAsWritten(t: Tx, y: int, m: int)
    requires 1 <= m <= 12
  {
    t.date.Some? && MonthStart(y, m) <= Instant(t.date.value) <= MonthEndAsWritten(y, m)
  }

  /**
   * The window as written keeps a stamp of the month unless it lies on the
   * last day after midnight: those it drops.
   */
  lemma WindowAsWrittenIff(t: Tx, y: int, m: int)
    requires 1 <= m <= 12
    ensures InWindowAsWritten(t, y, m)
      <==> InMonth(t, y, m) && (t.date.value.date.day < DaysInMonth(y, m) || t.date.value.ms == 0)
  {
    if t.date.Some? {
      var s := t.date.value;
      var first, last := FirstOfMonth(y, m), LastOfMonth(y, m);
      var n := DayNumber(s.date);
      assert Instant(s) == n * MsPerDay + s.ms;
      assert MonthStart(y, m) <= Instant(s) <==> DayNumber(first) <= n;
      assert Instant(s) <= MonthEndAsWritten(y, m) <==> n < DayNumber(last) || (n == DayNumber(last) && s.ms == 0);
      DayNumberOrder(s.date, first);
      DayNumberOrder(first, s.date);
      DayNumberOrder(s.date, last);
    }
  }

  /** The window ending at 23:59:59.999 of the last day is exactly the calendar month. */
  lemma WindowToDayEnd(t: Tx, y: int, m: int)
    requires 1 <= m <= 12
    ensures InMonth(t, y, m)
      <==> t.date.Some? && MonthStart(y, m) <= Instant(t.date.value) <= DayEnd(DayNumber(LastOfMonth(y, m)))
  {
    if t.date.Some? {
      InMonthIff(t.date.value, y, m);
    }
  }

  /** The total of a month's transactions, chosen by their calendar month. */
  function MonthTotal(ts: seq<Tx>, y: int, m: int): real {
    Total(Where(ts, t => InMonth(t, y, m)))
  }

  /** The total the summary computes, through the window as written. */
  function MonthTotalAsWritten(ts: seq<Tx>, y: int, m: int): real
    requires 1 <= m <= 12
  {
    Total(Where(ts, t => InWindowAsWritten(t, y, m)))
  }

  /** A transaction of the last day of the month stamped after midnight. */
  predicate LateOnLastDay(t: Tx, y: int, m: int)
    requires 1 <= m <= 12
  {
    InMonth(t, y, m) && t.date.value.date.day == DaysInMonth(y, m) && t.date.value.ms > 0
  }

  /** What the window as written loses is exactly the last day after midnight. */
  lemma MonthTotalAsWrittenLoses(ts: seq<Tx>, y: int, m: int)
    requires 1 <= m <= 12
    ensures MonthTotal(ts, y, m) == MonthTotalAsWritten(ts, y, m) + Total(Where(ts, t => LateOnLastDay(t, y, m)))
  {
    forall t ensures InMonth(t, y, m) == (InWindowAsWritten(t, y, m) || LateOnLastDay(t, y, m)) {
      WindowAsWrittenIff(t, y, m);
    }
    WhereSplit(ts, t => InMonth(t, y, m), t => InWindowAsWritten(t, y, m), t => LateOnLastDay(t, y, m));
  }

  /**
   * `new Date("2024-03-31")` is midnight UTC, 03:00 on a clock three hours
   * ahead of UTC: the summary for March 2024 then does not count it.
   */
  lemma LastDayMissedAsWritten()
    ensures var t := Tx(1, "обед", 100.0, "еда", Some(Stamp(Date(2024, 3, 31), 3 * 3600000)));
      MonthTotalAsWritten([t], 2024, 3) == 0.0 && MonthTotal([t], 2024, 3) == 100.0
  {
    var t := Tx(1, "обед", 100.0, "еда", Some(Stamp(Date(2024, 3, 31), 3 * 3600000)));
    WindowAsWrittenIff(t, 2024, 3);
    assert [t][..0] == [];
  }

  // ---------------------------------------------------------------------
  // calculateMonthlySummary

  datatype Summary = Summary(income: real, expenses: real, surplus: real, forecast: real)

  /** `daysPassed = Math.min(today.getDate(), daysInMonth)`. */
  function DaysPassed(today: int, y: int, m: int): (n: int)
    requires 1 <= m <= 12
    ensures n <= DaysInMonth(y, m) && n <= today && (n == today || n == DaysInMonth(y, m))
  {
    if today < DaysInMonth(y, m) then today else DaysInMonth(y, m)
  }

  /** `x / daysPassed`, or 0 when no day has passed. */
  function DailyRate(x: real, passed: int): real {
    if passed > 0 then x / (passed as real) else 0.0
  }

  /** `(dailyIncome - dailyExpenses) * daysInMonth`. */
  function Projection(income: real, expenses: real, passed: int, daysInMonth: int): real {
    (DailyRate(income, passed) - DailyRate(expenses, passed)) * (daysInMonth as real)
  }

  /**
   * The month summary: income, expenses and surplus of the month on screen,
   * through the page's window, and the projection of the daily rates to the
   * month's end; `today` is the day of the month of the clock. Its totals
   * are those of the calendar month less what is stamped on the last day
   * after midnight.
   */
  function MonthlySummary(incomeData: seq<Tx>, expenseData: seq<Tx>, y: int, m: int, today: int): (s: Summary)
    requires 1 <= m <= 12
    ensures s.income == MonthTotalAsWritten(incomeData, y, m) && s.expenses == MonthTotalAsWritten(expenseData, y, m)
    ensures s.income == MonthTotal(incomeData, y, m) - Total(Where(incomeData, t => LateOnLastDay(t, y, m)))
    ensures s.expenses == MonthTotal(expenseData, y, m) - Total(Where(expenseData, t => LateOnLastDay(t, y, m)))
    ensures s.surplus == s.income - s.expenses
    ensures s.forecast == Projection(s.income, s.expenses, DaysPassed(today, y, m), DaysInMonth(y, m))
  {
    MonthTotalAsWrittenLoses(incomeData, y, m);
    MonthTotalAsWrittenLoses(expenseData, y, m);
    var income, expenses := MonthTotalAsWritten(incomeData, y, m), MonthTotalAsWritten(expenseData, y, m);
    Summary(income, expenses, income - expenses, Projection(income, expenses, DaysPassed(today, y, m), DaysInMonth(y, m)))
  }

  /**
   * The projection is the surplus so far scaled from the days passed to
   * the whole month: with every day passed it is the surplus itself, and
   * with none it is 0.
   */
  lemma ProjectionScales(income: real, expenses: real, passed: int, daysInMonth: int)
    ensures passed > 0 ==> Projection(income, expenses, passed, daysInMonth) * (passed as real) == (income - expenses) * (daysInMonth as real)
    ensures passed > 0 && passed == daysInMonth ==> Projection(income, expenses, passed, daysInMonth) == income - expenses
    ensures passed <= 0 ==> Projection(income, expenses, passed, daysInMonth) == 0.0
  {
    if passed > 0 {
      var p, d := passed as real, daysInMonth as real;
      var a, b := income / p, expenses / p;
      assert a * p == income && b * p == expenses;
      calc {
        (a - b) * d * p;
        == (a * p - b * p) * d;
        == (income - expenses) * d;
      }
      if passed == daysInMonth {
        assert (a - b) * p == income - expenses;
      }
    }
  }

  /** From the month's last day on, the projection of the summary is its surplus. */
  lemma ProjectionAtMonthEnd(incomeData: seq<Tx>, expenseData: seq<Tx>, y: int, m: int, today: int)
    requires 1 <= m <= 12 && today >= DaysInMonth(y, m)
    ensures MonthlySummary(incomeData, expenseData, y, m, today).forecast == MonthlySummary(incomeData, expenseData, y, m, today).surplus
  {
    var s := MonthlySummary(incomeData, expenseData, y, m, today);
    ProjectionScales(s.income, s.expenses, DaysInMonth(y, m), DaysInMonth(y, m));
  }

  // ---------------------------------------------------------------------
  // renderCategories

  /** An entry of `categories`: the server's `id` is absent for the built-in defaults. */
  datatype Category = Category(id: Option<int>, name: string, budget: real, emoji: string)

  /** What the month's expenses of one category come to, through the page's month window. */
  function CategorySpent(expenseData: seq<Tx>, name: string, y: int, m: int): real
    requires 1 <= m <= 12
  {
    Total(Where(expenseData, t => OfCategory(t, name, y, m)))
  }

  /**
   * A category's spend through the page's window is its calendar-month
   * spend less what is stamped on the month's last day after midnight.
   */
  lemma CategorySpentLoses(expenseData: seq<Tx>, name: string, y: int, m: int)
    requires 1 <= m <= 12
    ensures CategorySpent(expenseData, name, y, m)
      == Total(Where(expenseData, (t: Tx) => t.category == name && InMonth(t, y, m)))
         - Total(Where(expenseData, (t: Tx) => t.category == name && LateOnLastDay(t, y, m)))
  {
    forall t: Tx ensures (t.category == name && InMonth(t, y, m))
                     == (OfCategory(t, name, y, m) || (t.category == name && LateOnLastDay(t, y, m))) {
      WindowAsWrittenIff(t, y, m);
    }
    WhereSplit(expenseData, (t: Tx) => t.category == name && InMonth(t, y, m), (t: Tx) => OfCategory(t, name, y, m),
               (t: Tx) => t.category == name && LateOnLastDay(t, y, m));
  }

  /** `t.category === cat.name && tDate >= monthStart && tDate <= monthEnd`. */
  predicate OfCategory(t: Tx, name: string, y: int, m: int)
    requires 1 <= m <= 12
  {
    t.category == name && InWindowAsWritten(t, y, m)
  }

  /** `cat.budget > 0 ? Math.min(spent / cat.budget * 100, 100) : 0`. */
  function BudgetProgress(spent: real, budget: real): (p: real)
    ensures budget <= 0.0 ==> p == 0.0
    ensures p <= 100.0
  {
    if budget > 0.0 then (if spent / budget * 100.0 < 100.0 then spent / budget * 100.0 else 100.0) else 0.0
  }

  /** With a budget, the share of it spent, capped at 100, and never negative for a spend that is not. */
  lemma BudgetProgressBounds(spent: real, budget: real)
    requires budget > 0.0
    ensures spent >= 0.0 ==> 0.0 <= BudgetProgress(spent, budget)
    ensures BudgetProgress(spent, budget) == 100.0 <==> spent >= budget
    ensures spent <= budget ==> BudgetProgress(spent, budget) * budget == spent * 100.0
  {
    var q := spent / budget;
    assert q * budget == spent;
    assert spent >= budget <==> q >= 1.0;
  }

  /** A share `p` of a positive budget reaches `c` exactly when the spend reaches `c` hundredths of the budget. */
  lemma ShareAtLeast(p: real, spent: real, budget: real, c: real)
    requires budget > 0.0 && p * budget == spent * 100.0
    ensures p >= c <==> spent * 100.0 >= c * budget
  {
    ScaleOrder(c, p, budget);
  }

  datatype BudgetStatus = NoBudget | OverBudget(overspent: real) | NearLimit | WithinBudget

  /** The first of the four cases that applies. */
  function StatusOf(spent: real, budget: real): (s: BudgetStatus)
    ensures s.OverBudget? ==> s.overspent == spent - budget && s.overspent > 0.0
  {
    if budget == 0.0 then NoBudget
    else if spent > budget then OverBudget(spent - budget)
    else if BudgetProgress(spent, budget) >= 90.0 then NearLimit
    else WithinBudget
  }

  /**
   * Each status in terms of the spend alone: no budget exactly at 0, over
   * budget exactly above it, near the limit from 90 % up to the budget and
   * within it below 90 %.
   */
  lemma StatusBands(spent: real, budget: real)
    ensures StatusOf(spent, budget) == NoBudget <==> budget == 0.0
    ensures StatusOf(spent, budget).OverBudget? <==> budget != 0.0 && spent > budget
    ensures budget > 0.0 ==> (StatusOf(spent, budget) == NearLimit <==> budget * 0.9 <= spent <= budget)
    ensures budget > 0.0 ==> (StatusOf(spent, budget) == WithinBudget <==> spent < budget * 0.9)
    ensures budget < 0.0 ==> StatusOf(spent, budget) != NearLimit
  {
    if budget > 0.0 && spent <= budget {
      BudgetProgressBounds(spent, budget);
      ShareAtLeast(BudgetProgress(spent, budget), spent, budget, 90.0);
    }
  }

  /** A category spent one and a half times over is over budget by half of it, never near its limit. */
  lemma OverspentByHalf(budget: real)
    requires budget > 0.0
    ensures StatusOf(budget * 1.5, budget) == OverBudget(budget * 0.5)
  {
  }

  /** One line of the category list: the month's spend, the progress bar and the status. */
  datatype CategoryLine = CategoryLine(category: Category, spent: real, progress: real, status: BudgetStatus)

  function LineOf(c: Category, expenseData: seq<Tx>, y: int, m: int): (l: CategoryLine)
    requires 1 <= m <= 12
    ensures l.category == c && l.spent == CategorySpent(expenseData, c.name, y, m)
    ensures l.progress == BudgetProgress(l.spent, c.budget) && l.status == StatusOf(l.spent, c.budget)
  {
    var spent := CategorySpent(expenseData, c.name, y, m);
    CategoryLine(c, spent, BudgetProgress(spent, c.budget), StatusOf(spent, c.budget))
  }

  /** `categories.forEach(...)`: one line per category, in order. */
  function CategoryLines(cats: seq<Category>, expenseData: seq<Tx>, y: int, m: int): (ls: seq<CategoryLine>)
    requires 1 <= m <= 12
    ensures |ls| == |cats| && forall i :: 0 <= i < |cats| ==> ls[i] == LineOf(cats[i], expenseData, y, m)
  {
    seq(|cats|, i requires 0 <= i < |cats| => LineOf(cats[i], expenseData, y, m))
  }

  /** `getEmoji`: the picture of a known category, a generic one for any other. */
  function EmojiOf(name: string): string {
    if name == "еда" then "🍔"
    else if name == "транспорт" then "🚌"
    else if name == "развлечения" then "🎮"
    else if name == "жилье" then "🏠"
    else if name == "здоровье" then "💊"
    else if name == "одежда" then "👕"
    else if name == "другое" then "💡"
    else if name == "доход" then "💰"
    else "💸"
  }

  /** `allCategoriesList`. */
  const DefaultNames: seq<string> := ["еда", "транспорт", "развлечения", "жилье", "здоровье", "одежда", "другое"]

  /** The list shown when the page has no categories: the built-in names with no budget. */
  function DefaultCategories(): (cs: seq<Category>)
    ensures |cs| == |DefaultNames|
    ensures forall i :: 0 <= i < |cs| ==> cs[i] == Category(None, DefaultNames[i], 0.0, EmojiOf(DefaultNames[i]))
  {
    seq(|DefaultNames|, i requires 0 <= i < |DefaultNames| => Category(None, DefaultNames[i], 0.0, EmojiOf(DefaultNames[i])))
  }

  /** Every built-in category shows "no budget", whatever was spent on it. */
  lemma DefaultsHaveNoBudget(expenseData: seq<Tx>, y: int, m: int)
    requires 1 <= m <= 12
    ensures forall l :: l in CategoryLines(DefaultCategories(), expenseData, y, m) ==> l.status == NoBudget
  {
    var ls := CategoryLines(DefaultCategories(), expenseData, y, m);
    forall l | l in ls ensures l.status == NoBudget {
      var i :| 0 <= i < |ls| && ls[i] == l;
      assert DefaultCategories()[i].budget == 0.0;
    }
  }

  // ---------------------------------------------------------------------
  // renderMonthAnalyticsChart

  /** `Math.max(cat.budget - spent, 0)`. */
  function Remaining(budget: real, spent: real): (r: real)
    ensures r >= 0.0 && r >= budget - spent
    ensures r == 0.0 || r == budget - spent
  {
    if budget - spent > 0.0 then budget - spent else 0.0
  }

  /** One bar group of the budget chart. */
  datatype BudgetBar = BudgetBar(name: string, budget: real, spent: real, remaining: real)

  function BarOf(c: Category, expenseData: seq<Tx>, y: int, m: int): BudgetBar
    requires 1 <= m <= 12
  {
    var spent := CategorySpent(expenseData, c.name, y, m);
    BudgetBar(c.name, c.budget, spent, Remaining(c.budget, spent))
  }

  /**
   * `categoryData[name] = bar` followed by `Object.keys`: a name seen before
   * keeps its place and takes the new bar. The name `__proto__`, which sets
   * the object's prototype instead, is not modelled.
   */
  function Put(bars: seq<BudgetBar>, b: BudgetBar): (r: seq<BudgetBar>)
    ensures |r| == |bars| || r == bars + [b]
  {
    if bars == [] then [b]
    else if bars[0].name == b.name then [b] + bars[1..]
    else [bars[0]] + Put(bars[1..], b)
  }

  /** The object after storing each bar of a list in turn, keys in insertion order. */
  function Collect(bs: seq<BudgetBar>): seq<BudgetBar> {
    if bs == [] then [] else Put(Collect(bs[..|bs| - 1]), bs[|bs| - 1])
  }

  /** The bar of each category, in the order of the categories. */
  function BarsOf(cats: seq<Category>, expenseData: seq<Tx>, y: int, m: int): (bs: seq<BudgetBar>)
    requires 1 <= m <= 12
    ensures |bs| == |cats| && forall i :: 0 <= i < |cats| ==> bs[i] == BarOf(cats[i], expenseData, y, m)
  {
    seq(|cats|, i requires 0 <= i < |cats| => BarOf(cats[i], expenseData, y, m))
  }

  /** The data of the budget chart. */
  function BudgetChart(cats: seq<Category>, expenseData: seq<Tx>, y: int, m: int): seq<BudgetBar>
    requires 1 <= m <= 12
  {
    Collect(BarsOf(cats, expenseData, y, m))
  }

  predicate HasBar(bars: seq<BudgetBar>, name: string) {
    exists i :: 0 <= i < |bars| && bars[i].name == name
  }

  /** The names of a list of bars are distinct. */
  predicate DistinctNames(bars: seq<BudgetBar>) {
    forall i, j :: 0 <= i < j < |bars| ==> bars[i].name != bars[j].name
  }

  /** `bs[k]` is the last bar with its name. */
  predicate LastOfName(bs: seq<BudgetBar>, k: int) {
    0 <= k < |bs| && forall k' :: k < k' < |bs| ==> bs[k'].name != bs[k].name
  }

  /** Storing under a name already present overwrites that entry in place. */
  lemma {:induction false} PutAt(bars: seq<BudgetBar>, b: BudgetBar, i: nat)
    requires i < |bars| && bars[i].name == b.name
    requires forall j :: 0 <= j < i ==> bars[j].name != b.name
    ensures Put(bars, b) == bars[i := b]
    decreases i
  {
    if i > 0 {
      PutAt(bars[1..], b, i - 1);
      assert [bars[0]] + bars[1..][i - 1 := b] == bars[i := b];
    } else {
      assert [b] + bars[1..] == bars[0 := b];
    }
  }

  /** Storing under a new name appends. */
  lemma {:induction false} PutEnd(bars: seq<BudgetBar>, b: BudgetBar)
    requires forall j :: 0 <= j < |bars| ==> bars[j].name != b.name
    ensures Put(bars, b) == bars + [b]
    decreases |bars|
  {
    if bars != [] {
      PutEnd(bars[1..], b);
      assert [bars[0]] + (bars[1..] + [b]) == bars + [b];
    }
  }

  /** What `Put` promises about names and entries, for a list with distinct names. */
  ghost predicate PutShape(bars: seq<BudgetBar>, b: BudgetBar, r: seq<BudgetBar>) {
    DistinctNames(r) && b in r
    && (forall name :: HasBar(r, name) <==> name == b.name || HasBar(bars, name))
    && (forall c :: c in r ==> c == b || (c in bars && c.name != b.name))
  }

  lemma OverwriteShape(bars: seq<BudgetBar>, b: BudgetBar, i: nat)
    requires DistinctNames(bars) && i < |bars| && bars[i].name == b.name
    ensures PutShape(bars, b, bars[i := b])
  {
    var r := bars[i := b];
    assert r[i] == b;
    forall name ensures HasBar(r, name) <==> name == b.name || HasBar(bars, name) {
      if HasBar(bars, name) {
        var j :| 0 <= j < |bars| && bars[j].name == name;
        assert r[j].name == name;
      }
      if HasBar(r, name) {
        var j :| 0 <= j < |r| && r[j].name == name;
        assert j != i ==> bars[j].name == name;
      }
    }
  }

  lemma AppendShape(bars: seq<BudgetBar>, b: BudgetBar)
    requires DistinctNames(bars) && !HasBar(bars, b.name)
    ensures PutShape(bars, b, bars + [b])
  {
    var r := bars + [b];
    assert r[|bars|] == b;
    forall name ensures HasBar(r, name) <==> name == b.name || HasBar(bars, name) {
      if HasBar(bars, name) {
        var j :| 0 <= j < |bars| && bars[j].name == name;
        assert r[j].name == name;
      }
    }
  }

  /** `Put` keeps names distinct, adds the new name and replaces only the bar of that name. */
  lemma PutNames(bars: seq<BudgetBar>, b: BudgetBar)
    requires DistinctNames(bars)
    ensures PutShape(bars, b, Put(bars, b))
  {
    if HasBar(bars, b.name) {
      var i :| 0 <= i < |bars| && bars[i].name == b.name;
      PutAt(bars, b, i);
      OverwriteShape(bars, b, i);
    } else {
      PutEnd(bars, b);
      AppendShape(bars, b);
    }
  }

  /** The collected bars name exactly the names of the list, each once. */
  lemma {:induction false} CollectCover(bs: seq<BudgetBar>)
    ensures DistinctNames(Collect(bs)) && forall name :: HasBar(Collect(bs), name) <==> HasBar(bs, name)
    decreases |bs|
  {
    if bs != [] {
      var n := |bs| - 1;
      CollectCover(bs[..n]);
      PutNames(Collect(bs[..n]), bs[n]);
      forall name ensures HasBar(bs, name) <==> name == bs[n].name || HasBar(bs[..n], name) {
        if HasBar(bs, name) {
          var k :| 0 <= k < |bs| && bs[k].name == name;
          if k < n {
            assert bs[..n][k].name == name;
          }
        }
        if HasBar(bs[..n], name) {
          var k :| 0 <= k < n && bs[..n][k].name == name;
          assert bs[k].name == name;
        }
      }
    }
  }

  /** Each collected bar is the last one of the list with its name. */
  lemma {:induction false} CollectLast(bs: seq<BudgetBar>)
    ensures forall c :: c in Collect(bs) ==> exists k :: LastOfName(bs, k) && c == bs[k]
    decreases |bs|
  {
    if bs != [] {
      var n := |bs| - 1;
      CollectCover(bs[..n]);
      CollectLast(bs[..n]);
      PutNames(Collect(bs[..n]), bs[n]);
      forall c | c in Collect(bs) ensures exists k :: LastOfName(bs, k) && c == bs[k] {
        if c == bs[n] {
          assert LastOfName(bs, n);
        } else {
          var k :| LastOfName(bs[..n], k) && c == bs[..n][k];
          assert c.name != bs[n].name;
          forall k' | k < k' < |bs| ensures bs[k'].name != bs[k].name {
            if k' < n {
              assert bs[..n][k'] == bs[k'];
            }
          }
          assert LastOfName(bs, k);
        }
      }
    }
  }

  /**
   * The budget chart has one bar per category name, none repeated, and
   * each bar is that of the last category with its name, with the
   * remaining budget never below zero.
   */
  lemma BudgetChartShape(cats: seq<Category>, expenseData: seq<Tx>, y: int, m: int)
    requires 1 <= m <= 12
    ensures var bars := BudgetChart(cats, expenseData, y, m);
      DistinctNames(bars)
      && (forall name :: HasBar(bars, name) <==> exists k :: 0 <= k < |cats| && cats[k].name == name)
      && (forall c :: c in bars ==> (c.remaining >= 0.0
            && exists k :: LastOfName(BarsOf(cats, expenseData, y, m), k) && c == BarOf(cats[k], expenseData, y, m)))
  {
    var bs := BarsOf(cats, expenseData, y, m);
    CollectCover(bs);
    CollectLast(bs);
    forall name ensures HasBar(bs, name) <==> exists k :: 0 <= k < |cats| && cats[k].name == name {
      if exists k :: 0 <= k < |cats| && cats[k].name == name {
        var k :| 0 <= k < |cats| && cats[k].name == name;
        assert bs[k].name == name;
      }
    }
  }

  /** The loop of `renderMonthAnalyticsChart` filling `categoryData`. */
  method CategoryProgressData(cats: seq<Category>, expenseData: seq<Tx>, y: int, m: int) returns (bars: seq<BudgetBar>)
    requires 1 <= m <= 12
    ensures bars == BudgetChart(cats, expenseData, y, m)
  {
    var bs := BarsOf(cats, expenseData, y, m);
    bars := [];
    for i := 0 to |cats|
      invariant bars == Collect(bs[..i])
    {
      assert bs[..i + 1][..i] == bs[..i];
      bars := Put(bars, BarOf(cats[i], expenseData, y, m));
    }
    assert bs[..|cats|] == bs;
  }

  // ---------------------------------------------------------------------
  // renderCashflowForecastChart

  /** One point of the cash-flow line. */
  datatype DayPoint = DayPoint(day: int, income: real, expenses: real, balance: real)

  /** `tDate.getDate() === day` and the month and year of the chart. */
  predicate OnDay(t: Tx, y: int, m: int, d: int) {
    InMonth(t, y, m) && t.date.value.date.day == d
  }

  /** A transaction of the month dated on or before day `n`. */
  predicate ByDay(t: Tx, y: int, m: int, n: int) {
    InMonth(t, y, m) && t.date.value.date.day <= n
  }

  function DayTotal(ts: seq<Tx>, y: int, m: int, d: int): real {
    Total(Where(ts, t => OnDay(t, y, m, d)))
  }

  /** The month's transactions up to and including day `n`. */
  function TotalThrough(ts: seq<Tx>, y: int, m: int, n: int): real {
    Total(Where(ts, t => ByDay(t, y, m, n)))
  }

  lemma ThroughStep(ts: seq<Tx>, y: int, m: int, n: int)
    ensures TotalThrough(ts, y, m, n) == TotalThrough(ts, y, m, n - 1) + DayTotal(ts, y, m, n)
  {
    WhereSplit(ts, t => ByDay(t, y, m, n), t => ByDay(t, y, m, n - 1), t => OnDay(t, y, m, n));
  }

  /** No day of a month comes before day 1. */
  lemma ThroughNothing(ts: seq<Tx>, y: int, m: int)
    ensures TotalThrough(ts, y, m, 0) == 0.0
  {
    WhereNone(ts, t => ByDay(t, y, m, 0));
  }

  /** Every day of a month is on or before its last. */
  lemma ThroughWholeMonth(ts: seq<Tx>, y: int, m: int)
    requires 1 <= m <= 12
    ensures TotalThrough(ts, y, m, DaysInMonth(y, m)) == MonthTotal(ts, y, m)
  {
    WhereSame(ts, t => ByDay(t, y, m, DaysInMonth(y, m)), t => InMonth(t, y, m));
  }

  /** The point of day `d`: its income and expenses, and the balance of the month up to it. */
  function Point(incomeData: seq<Tx>, expenseData: seq<Tx>, y: int, m: int, d: int): DayPoint {
    DayPoint(d, DayTotal(incomeData, y, m, d), DayTotal(expenseData, y, m, d),
             TotalThrough(incomeData, y, m, d) - TotalThrough(expenseData, y, m, d))
  }

  /**
   * The balance starts from the first day's net, each later day adds its
   * own, and the last day closes on the month's income minus its expenses.
   */
  lemma PointsChain(incomeData: seq<Tx>, expenseData: seq<Tx>, y: int, m: int)
    requires 1 <= m <= 12
    ensures var p1 := Point(incomeData, expenseData, y, m, 1); p1.balance == p1.income - p1.expenses
    ensures forall d :: (Point(incomeData, expenseData, y, m, d).balance
      == Point(incomeData, expenseData, y, m, d - 1).balance + Point(incomeData, expenseData, y, m, d).income - Point(incomeData, expenseData, y, m, d).expenses)
    ensures Point(incomeData, expenseData, y, m, DaysInMonth(y, m)).balance == MonthTotal(incomeData, y, m) - MonthTotal(expenseData, y, m)
  {
    forall d ensures Point(incomeData, expenseData, y, m, d).balance
      == Point(incomeData, expenseData, y, m, d - 1).balance + Point(incomeData, expenseData, y, m, d).income - Point(incomeData, expenseData, y, m, d).expenses {
      ThroughStep(incomeData, y, m, d);
      ThroughStep(expenseData, y, m, d);
    }
    ThroughNothing(incomeData, y, m);
    ThroughNothing(expenseData, y, m);
    ThroughStep(incomeData, y, m, 1);
    ThroughStep(expenseData, y, m, 1);
    ThroughWholeMonth(incomeData, y, m);
    ThroughWholeMonth(expenseData, y, m);
  }

  /**
   * The cash-flow loop: one point per day of the month, in order, each with
   * that day's income and expenses; the balance runs from 0, each day adding
   * its net, and the month ends on its income minus its expenses.
   */
  method CashflowForecast(incomeData: seq<Tx>, expenseData: seq<Tx>, y: int, m: int) returns (points: seq<DayPoint>)
    requires 1 <= m <= 12
    ensures |points| == DaysInMonth(y, m)
    ensures forall i :: 0 <= i < |points| ==> points[i] == Point(incomeData, expenseData, y, m, i + 1)
    ensures points[0].balance == points[0].income - points[0].expenses
    ensures forall i :: 0 < i < |points| ==> points[i].balance == points[i - 1].balance + points[i].income - points[i].expenses
    ensures points[|points| - 1].balance == MonthTotal(incomeData, y, m) - MonthTotal(expenseData, y, m)
  {
    var daysInMonth := DaysInMonth(y, m);
    points := [];
    var balance := 0.0;
    ThroughNothing(incomeData, y, m);
    ThroughNothing(expenseData, y, m);
    for day := 1 to daysInMonth + 1
      invariant |points| == day - 1
      invariant forall i :: 0 <= i < |points| ==> points[i] == Point(incomeData, expenseData, y, m, i + 1)
      invariant balance == TotalThrough(incomeData, y, m, day - 1) - TotalThrough(expenseData, y, m, day - 1)
    {
      var dayIncome := DayTotal(incomeData, y, m, day);
      var dayExpenses := DayTotal(expenseData, y, m, day);
      ThroughStep(incomeData, y, m, day);
      ThroughStep(expenseData, y, m, day);
      balance := balance + (dayIncome - dayExpenses);
      points := points + [DayPoint(day, dayIncome, dayExpenses, balance)];
    }
    PointsChain(incomeData, expenseData, y, m);
  }
}
