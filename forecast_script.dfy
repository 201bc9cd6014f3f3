/**
 * The arithmetic of the forecast page (forecast/static/forecast/script.js):
 * range filters, per-month and per-category tallies, the month series the
 * charts draw, the month summary and its projection, budget and goal
 * status, the day-by-day cash flow and the page's own list of budget
 * categories. Amounts are JavaScript numbers, modelled as reals; a
 * transaction's `new Date(t.date)` is a local stamp, or `None` when the
 * text does not parse (every comparison with such a date is false).
 */
module ForecastScript {
  import opened Wrappers
  import opened Text
  import opened Calendar

  /** A local stamp that denotes a real instant. */
  type When = s: Stamp | ValidStamp(s) witness Stamp(Date(1970, 1, 1), 0)

  /** One entry of `incomeTransactions` or `expensesTransactions`. */
  datatype Tx = Tx(id: int, name: string, amount: real, category: string, date: Option<When>)

  /** `arr.reduce((sum, t) => sum + t.amount, 0)`. */
  function Total(ts: seq<Tx>): real
  {
    if ts == [] then 0.0 else Total(ts[..|ts| - 1]) + ts[|ts| - 1].amount
  }

  lemma {:induction false} TotalAppend(a: seq<Tx>, b: seq<Tx>)
    ensures Total(a + b) == Total(a) + Total(b)
    decreases |b|
  {
    if b == [] {
      assert a + b == a;
    } else {
      assert (a + b)[..|a + b| - 1] == a + b[..|b| - 1];
      assert (a + b)[|a + b| - 1] == b[|b| - 1];
      TotalAppend(a, b[..|b| - 1]);
    }
  }

  function Sum(xs: seq<real>): real
  {
    if xs == [] then 0.0 else Sum(xs[..|xs| - 1]) + xs[|xs| - 1]
  }

  lemma {:induction false} SumZero(xs: seq<real>)
    requires forall i :: 0 <= i < |xs| ==> xs[i] == 0.0
    ensures Sum(xs) == 0.0
    decreases |xs|
  {
    if xs != [] {
      SumZero(xs[..|xs| - 1]);
    }
  }

  /** Raising one entry of a list raises its sum by as much. */
  lemma {:induction false} SumBump(xs: seq<real>, i: nat, a: real)
    requires i < |xs|
    ensures Sum(xs[i := xs[i] + a]) == Sum(xs) + a
    decreases |xs|
  {
    var n := |xs| - 1;
    var ys := xs[i := xs[i] + a];
    if i < n {
      assert ys[..n] == xs[..n][i := xs[i] + a];
      SumBump(xs[..n], i, a);
    } else {
      assert ys[..n] == xs[..n];
    }
  }

  // ---------------------------------------------------------------------
  // filterByRange

  /** The window of the chart buttons: 7 days for "week", 30 for "month", 365 for anything else. */
  function RangeDays(range: string): int {
    if range == "week" then 7 else if range == "month" then 30 else 365
  }

  /** `(now - d) / 86400000 <= days`, false for an invalid date; `now` is `new Date()` in local milliseconds. */
  predicate WithinRange(t: Tx, range: string, now: int) {
    t.date.Some? && now - Instant(t.date.value) <= RangeDays(range) * MsPerDay
  }

  function FilterByRange(ts: seq<Tx>, range: string, now: int): (r: seq<Tx>)
    ensures |r| <= |ts|
  {
    if ts == [] then []
    else
      var rest := FilterByRange(ts[..|ts| - 1], range, now);
      if WithinRange(ts[|ts| - 1], range, now) then rest + [ts[|ts| - 1]] else rest
  }

  /**
   * The filter keeps exactly the transactions inside the window, in their
   * order: filtering a concatenation filters each part. A dated transaction
   * later than `now` is always kept, since the window has no lower end.
   */
  lemma {:induction false} FilterByRangeKeeps(ts: seq<Tx>, range: string, now: int)
    ensures forall t :: t in FilterByRange(ts, range, now) <==> t in ts && WithinRange(t, range, now)
    ensures forall t :: t in ts && t.date.Some? && Instant(t.date.value) >= now ==> t in FilterByRange(ts, range, now)
    decreases |ts|
  {
    if ts != [] {
      FilterByRangeKeeps(ts[..|ts| - 1], range, now);
      assert ts == ts[..|ts| - 1] + [ts[|ts| - 1]];
    }
  }

  lemma {:induction false} FilterByRangeAppend(a: seq<Tx>, b: seq<Tx>, range: string, now: int)
    ensures FilterByRange(a + b, range, now) == FilterByRange(a, range, now) + FilterByRange(b, range, now)
    decreases |b|
  {
    if b == [] {
      assert a + b == a;
    } else {
      assert (a + b)[..|a + b| - 1] == a + b[..|b| - 1];
      assert (a + b)[|a + b| - 1] == b[|b| - 1];
      FilterByRangeAppend(a, b[..|b| - 1], range, now);
    }
  }

  /** What the week button shows is part of what the month button shows, and that of the year's. */
  lemma RangesNest(ts: seq<Tx>, now: int)
    ensures forall t :: t in FilterByRange(ts, "week", now) ==> t in FilterByRange(ts, "month", now)
    ensures forall t :: t in FilterByRange(ts, "month", now) ==> t in FilterByRange(ts, "year", now)
  {
    FilterByRangeKeeps(ts, "week", now);
    FilterByRangeKeeps(ts, "month", now);
    FilterByRangeKeeps(ts, "year", now);
  }

  // ---------------------------------------------------------------------
  // Tallies: getMonthlyData and expensesByCategory

  /** `m[k] || 0`. */
  function Get(m: map<string, real>, k: string): real {
    if k in m then m[k] else 0.0
  }

  /** `` `${d.getFullYear()}-${d.getMonth() + 1}` ``; an invalid date gives "NaN-NaN". */
  function MonthKey(t: Tx): string {
    match t.date
    case None => "NaN-NaN"
    case Some(s) => IntToString(s.date.year) + "-" + IntToString(s.date.month)
  }

  function CategoryOf(t: Tx): string { t.category }

  /** The key of every transaction, in order. */
  function KeysOf(ts: seq<Tx>, key: Tx -> string): (r: seq<string>)
    ensures |r| == |ts| && forall i :: 0 <= i < |ts| ==> r[i] == key(ts[i])
  {
    seq(|ts|, i requires 0 <= i < |ts| => key(ts[i]))
  }

  /** The object built by `arr.forEach(t => m[k] = (m[k] || 0) + t.amount)`. */
  function Tally(ts: seq<Tx>, key: Tx -> string): map<string, real>
  {
    if ts == [] then map[]
    else
      var m := Tally(ts[..|ts| - 1], key);
      var t := ts[|ts| - 1];
      m[key(t) := Get(m, key(t)) + t.amount]
  }

  /** The `forEach` that builds a tally object, for any key. */
  method TallyBy(arr: seq<Tx>, key: Tx -> string) returns (m: map<string, real>)
    ensures m == Tally(arr, key)
  {
    m := map[];
    var i := 0;
    while i < |arr|
      invariant 0 <= i <= |arr|
      invariant m == Tally(arr[..i], key)
    {
      assert arr[..i + 1][..i] == arr[..i];
      var k := key(arr[i]);
      m := m[k := Get(m, k) + arr[i].amount];
      i := i + 1;
    }
    assert arr[..i] == arr;
  }

  /** `getMonthlyData(arr)`. */
  method MonthlyData(arr: seq<Tx>) returns (m: map<string, real>)
    ensures m == Tally(arr, MonthKey)
  {
    m := TallyBy(arr, MonthKey);
  }

  /**
   * `expenseData.forEach(t => expensesByCategory[t.category] = ...)`, for
   * names the plain object does not inherit from `Object.prototype`.
   */
  method ExpensesByCategory(expenseData: seq<Tx>) returns (m: map<string, real>)
    ensures m == Tally(expenseData, CategoryOf)
  {
    m := TallyBy(expenseData, CategoryOf);
  }

  /** The values of a tally read off along a list of keys. */
  function Bars(keys: seq<string>, m: map<string, real>): (r: seq<real>)
    ensures |r| == |keys| && forall i :: 0 <= i < |keys| ==> r[i] == Get(m, keys[i])
  {
    seq(|keys|, i requires 0 <= i < |keys| => Get(m, keys[i]))
  }

  predicate NoDuplicates<T(==)>(s: seq<T>) {
    forall i, j :: 0 <= i < j < |s| ==> s[i] != s[j]
  }

  /**
   * Read along a list that names every key once, the tally adds up to the
   * total of the transactions: nothing is lost and nothing counted twice.
   */
  lemma {:induction false} TallySum(ts: seq<Tx>, key: Tx -> string, keys: seq<string>)
    requires NoDuplicates(keys) && forall i :: 0 <= i < |ts| ==> key(ts[i]) in keys
    ensures Sum(Bars(keys, Tally(ts, key))) == Total(ts)
    decreases |ts|
  {
    if ts == [] {
      SumZero(Bars(keys, map[]));
    } else {
      var n := |ts| - 1;
      TallySum(ts[..n], key, keys);
      var i :| 0 <= i < |keys| && keys[i] == key(ts[n]);
      TallyStep(ts, key, keys, i);
    }
  }

  /** One more transaction raises its own key's total and no other. */
  lemma TallyGet(ts: seq<Tx>, key: Tx -> string)
    requires ts != []
    ensures var t := ts[|ts| - 1];
      forall k :: Get(Tally(ts, key), k) == Get(Tally(ts[..|ts| - 1], key), k) + (if k == key(t) then t.amount else 0.0)
  {
  }

  /** Raising one key of a tally raises the one bar that reads it, when every key is read once. */
  lemma BarsStep(keys: seq<string>, m: map<string, real>, m2: map<string, real>, i: nat, a: real)
    requires NoDuplicates(keys) && i < |keys|
    requires forall k :: Get(m2, k) == Get(m, k) + (if k == keys[i] then a else 0.0)
    ensures Bars(keys, m2) == Bars(keys, m)[i := Bars(keys, m)[i] + a]
    ensures Sum(Bars(keys, m2)) == Sum(Bars(keys, m)) + a
  {
    SumBump(Bars(keys, m), i, a);
  }

  lemma TallyStep(ts: seq<Tx>, key: Tx -> string, keys: seq<string>, i: nat)
    requires ts != [] && NoDuplicates(keys) && i < |keys| && keys[i] == key(ts[|ts| - 1])
    ensures Sum(Bars(keys, Tally(ts, key))) == Sum(Bars(keys, Tally(ts[..|ts| - 1], key))) + ts[|ts| - 1].amount
  {
    var t := ts[|ts| - 1];
    TallyGet(ts, key);
    BarsStep(keys, Tally(ts[..|ts| - 1], key), Tally(ts, key), i, t.amount);
  }

  // ---------------------------------------------------------------------
  // Dedup and sort: `[...new Set(keys)].sort()`

  /** `[...new Set(s)]`: the first occurrence of every element, in order. */
  function Dedup<T(==,!new)>(s: seq<T>): (r: seq<T>)
    ensures forall x :: x in r <==> x in s
    ensures NoDuplicates(r)
  {
    if s == [] then []
    else
      var rest := Dedup(s[..|s| - 1]);
      assert forall x :: x in s <==> x in s[..|s| - 1] || x == s[|s| - 1];
      if s[|s| - 1] in rest then rest else rest + [s[|s| - 1]]
  }

  /** `le(a, b)`: `a` may stand before `b`; every two elements compare. */
  ghost predicate Comparable<T(!new)>(le: (T, T) -> bool) {
    forall a, b :: le(a, b) || le(b, a)
  }

  ghost predicate Transitive<T(!new)>(le: (T, T) -> bool) {
    forall a, b, c :: le(a, b) && le(b, c) ==> le(a, c)
  }

  predicate SortedBy<T>(s: seq<T>, le: (T, T) -> bool) {
    forall i, j :: 0 <= i < j < |s| ==> le(s[i], s[j])
  }

  /** Puts `x` before the first element it may precede. */
  function Insert<T(==,!new)>(x: T, s: seq<T>, le: (T, T) -> bool): (r: seq<T>)
    ensures multiset(r) == multiset(s) + multiset{x}
  {
    if s == [] || le(x, s[0]) then [x] + s
    else
      assert s == [s[0]] + s[1..];
      [s[0]] + Insert(x, s[1..], le)
  }

  /** A stable insertion sort, as `Array.prototype.sort` with a comparator. */
  function SortBy<T(==,!new)>(s: seq<T>, le: (T, T) -> bool): (r: seq<T>)
    ensures multiset(r) == multiset(s)
  {
    if s == [] then []
    else
      assert s == [s[0]] + s[1..];
      Insert(s[0], SortBy(s[1..], le), le)
  }

  /** Every element of `Insert(x, s, le)` is `x` or an element of `s`. */
  lemma InsertElements<T(!new)>(x: T, s: seq<T>, le: (T, T) -> bool)
    ensures forall y :: y in Insert(x, s, le) ==> y == x || y in s
  {
    var r := Insert(x, s, le);
    forall y | y in r ensures y == x || y in s {
      assert y in multiset(r);
    }
  }

  lemma {:induction false} InsertSorted<T(!new)>(x: T, s: seq<T>, le: (T, T) -> bool)
    requires SortedBy(s, le) && Comparable(le) && Transitive(le)
    ensures SortedBy(Insert(x, s, le), le)
    decreases |s|
  {
    if s != [] && !le(x, s[0]) {
      var rest := s[1..];
      InsertSorted(x, rest, le);
      var r := Insert(x, rest, le);
      assert Insert(x, s, le) == [s[0]] + r;
      assert le(s[0], x);
      InsertElements(x, rest, le);
      assert forall y :: y in rest ==> le(s[0], y) by {
        forall y | y in rest ensures le(s[0], y) {
          var j :| 0 <= j < |rest| && rest[j] == y;
          assert s[j + 1] == y;
        }
      }
      var full := [s[0]] + r;
      forall i, j | 0 <= i < j < |full| ensures le(full[i], full[j]) {
        if i == 0 {
          assert full[j] in r;
        } else {
          assert full[i] == r[i - 1] && full[j] == r[j - 1];
        }
      }
    }
  }

  /** The result is ordered by `le` and, by `SortBy`'s own contract, a permutation of the input. */
  lemma {:induction false} SortBySorted<T(!new)>(s: seq<T>, le: (T, T) -> bool)
    requires Comparable(le) && Transitive(le)
    ensures SortedBy(SortBy(s, le), le)
    decreases |s|
  {
    if s != [] {
      SortBySorted(s[1..], le);
      InsertSorted(s[0], SortBy(s[1..], le), le);
    }
  }

  /** A list's elements are distinct exactly when each occurs at most once in its multiset. */
  lemma {:induction false} NoDuplicatesCount<T(!new)>(s: seq<T>)
    ensures NoDuplicates(s) <==> forall x :: multiset(s)[x] <= 1
    decreases |s|
  {
    if s != [] {
      var n := |s| - 1;
      NoDuplicatesCount(s[..n]);
      assert s == s[..n] + [s[n]];
      assert multiset(s) == multiset(s[..n]) + multiset{s[n]};
      if NoDuplicates(s) {
        assert NoDuplicates(s[..n]);
        assert s[n] !in s[..n];
      }
      if forall x :: multiset(s)[x] <= 1 {
        assert forall x :: multiset(s[..n])[x] <= 1 by {
          forall x ensures multiset(s[..n])[x] <= 1 {
            assert multiset(s)[x] <= 1;
          }
        }
        assert s[n] !in multiset(s[..n]) by {
          assert multiset(s)[s[n]] <= 1;
        }
        forall i, j | 0 <= i < j < |s| ensures s[i] != s[j] {
          if j == n {
            assert s[i] in s[..n];
          } else {
            assert s[i] == s[..n][i] && s[j] == s[..n][j];
          }
        }
      }
    }
  }

  lemma SortByDistinct<T(!new)>(s: seq<T>, le: (T, T) -> bool)
    requires NoDuplicates(s)
    ensures NoDuplicates(SortBy(s, le))
  {
    NoDuplicatesCount(s);
    NoDuplicatesCount(SortBy(s, le));
  }

  // ---------------------------------------------------------------------
  // The order `sort()` uses: strings compared code unit by code unit

  predicate LexLe(a: string, b: string)
    decreases |a|
  {
    a == [] || (b != [] && (a[0] < b[0] || (a[0] == b[0] && LexLe(a[1..], b[1..]))))
  }

  lemma {:induction false} LexLeTotal(a: string, b: string)
    ensures LexLe(a, b) || LexLe(b, a)
    decreases |a|
  {
    if a != [] && b != [] && a[0] == b[0] {
      LexLeTotal(a[1..], b[1..]);
    }
  }

  lemma {:induction false} LexLeTransitive(a: string, b: string, c: string)
    requires LexLe(a, b) && LexLe(b, c)
    ensures LexLe(a, c)
    decreases |a|
  {
    if a != [] && a[0] == b[0] && b[0] == c[0] {
      LexLeTransitive(a[1..], b[1..], c[1..]);
    }
  }

  lemma LexLeIsOrder()
    ensures Comparable(LexLe) && Transitive(LexLe)
  {
    forall a, b ensures LexLe(a, b) || LexLe(b, a) {
      LexLeTotal(a, b);
    }
    forall a, b, c | LexLe(a, b) && LexLe(b, c) ensures LexLe(a, c) {
      LexLeTransitive(a, b, c);
    }
  }

  // ---------------------------------------------------------------------
  // The month labels of the charts

  /** Every month key of the income and the expenses, once. */
  function MonthKeys(inc: seq<Tx>, exp: seq<Tx>): (r: seq<string>)
    ensures NoDuplicates(r)
    ensures forall k :: k in r <==> k in KeysOf(inc, MonthKey) || k in KeysOf(exp, MonthKey)
  {
    Dedup(KeysOf(inc, MonthKey) + KeysOf(exp, MonthKey))
  }

  /** `[...new Set([...Object.keys(mInc), ...Object.keys(mExp)])].sort()`, as the page computes it. */
  function MonthLabels(inc: seq<Tx>, exp: seq<Tx>): seq<string> {
    SortBy(MonthKeys(inc, exp), LexLe)
  }

  /**
   * The page's labels name every month that has income or expenses, each
   * once, in the order of their text.
   */
  lemma MonthLabelsAsWritten(inc: seq<Tx>, exp: seq<Tx>)
    ensures var r := MonthLabels(inc, exp);
      SortedBy(r, LexLe) && NoDuplicates(r)
      && forall k :: k in r <==> k in KeysOf(inc, MonthKey) || k in KeysOf(exp, MonthKey)
  {
    LexLeIsOrder();
    SortBySorted(MonthKeys(inc, exp), LexLe);
    SortByDistinct(MonthKeys(inc, exp), LexLe);
    assert forall k :: k in MonthLabels(inc, exp) <==> k in multiset(MonthKeys(inc, exp));
  }

  function Day(y: int, m: int, d: int, ms: int): Option<When>
    requires ValidStamp(Stamp(Date(y, m, d), ms))
  {
    Some(Stamp(Date(y, m, d), ms))
  }

  /**
   * Text order is not calendar order once a year has a two-digit month:
   * income in February 2024 and an expense in October 2024 are labelled
   * "2024-10" first, so the savings line runs from October back to February.
   */
  lemma LexicalMonthsOutOfOrder()
    ensures MonthLabels([Tx(1, "зарплата", 100.0, "доход", Day(2024, 2, 10, 0))],
                        [Tx(2, "обед", 30.0, "еда", Day(2024, 10, 10, 0))]) == ["2024-10", "2024-2"]
  {
    var inc := [Tx(1, "зарплата", 100.0, "доход", Day(2024, 2, 10, 0))];
    var exp := [Tx(2, "обед", 30.0, "еда", Day(2024, 10, 10, 0))];
    MonthTexts();
    assert KeysOf(inc, MonthKey) + KeysOf(exp, MonthKey) == ["2024-2", "2024-10"];
    assert ["2024-2", "2024-10"][..1] == ["2024-2"] && "2024-10" !in ["2024-2"];
    assert Dedup(["2024-2"]) == ["2024-2"];
    assert MonthKeys(inc, exp) == ["2024-2", "2024-10"];
    TextSortOfTwo();
  }

  lemma MonthTexts()
    ensures IntToString(2024) + "-" + IntToString(2) == "2024-2"
    ensures IntToString(2024) + "-" + IntToString(10) == "2024-10"
  {
    assert NatToString(2) == "2" && NatToString(10) == "10";
    assert NatToString(20) == "20" && NatToString(202) == "202" && NatToString(2024) == "2024";
  }

  /** Two texts with a common prefix compare by the first character after it. */
  lemma {:induction false} LexLeAfterPrefix(a: string, b: string, k: nat)
    requires k < |a| && k < |b| && a[..k] == b[..k] && a[k] > b[k]
    ensures !LexLe(a, b)
    decreases k
  {
    if k > 0 {
      assert a[0] == a[..k][0] == b[..k][0] == b[0];
      assert a[1..][..k - 1] == a[1..k] == b[1..k] == b[1..][..k - 1];
      LexLeAfterPrefix(a[1..], b[1..], k - 1);
    }
  }

  /** Sorting two elements that may not stay in place swaps them. */
  lemma SortOfTwo<T(!new)>(a: T, b: T, le: (T, T) -> bool)
    requires !le(a, b)
    ensures SortBy([a, b], le) == [b, a]
  {
    assert [a, b][1..] == [b];
    assert [b][1..] == [];
    assert SortBy([b], le) == [b];
  }

  lemma TextSortOfTwo()
    ensures SortBy(["2024-2", "2024-10"], LexLe) == ["2024-10", "2024-2"]
  {
    var a, b := "2024-2", "2024-10";
    assert a[..5] == b[..5] && a[5] == '2' && b[5] == '1';
    LexLeAfterPrefix(a, b, 5);
    SortOfTwo(a, b, LexLe);
  }

  /** The calendar month of a label "year-month": year·12 + month − 1; `None` for any other text. */
  function LabelMonth(text: string): Option<int> {
    var parts := Split(text, '-');
    if |parts| == 2 && ParseInt(parts[0]).Some? && ParseInt(parts[1]).Some? then
      Some(ParseInt(parts[0]).value * 12 + ParseInt(parts[1]).value - 1)
    else None
  }

  /** Calendar order of labels; a label that names no month goes last. */
  predicate CalendarLe(a: string, b: string) {
    match (LabelMonth(a), LabelMonth(b))
    case (Some(x), Some(y)) => x <= y
    case (Some(_), None) => true
    case (None, Some(_)) => false
    case (None, None) => true
  }

  lemma CalendarLeIsOrder()
    ensures Comparable(CalendarLe) && Transitive(CalendarLe)
  {
  }

  function MonthIndex(s: When): int { s.date.year * 12 + s.date.month - 1 }

  /** The label of a dated transaction reads back as its month (years from 0 on, as `strftime` writes them). */
  lemma LabelMonthOf(t: Tx)
    requires t.date.Some? && t.date.value.date.year >= 0
    ensures LabelMonth(MonthKey(t)) == Some(MonthIndex(t.date.value))
  {
    var s := t.date.value;
    var a, b := NatToString(s.date.year), NatToString(s.date.month);
    assert Free(a, '-') && Free(b, '-');
    SplitAfter(a, '-', b);
    SplitFree(b, '-');
    assert MonthKey(t) == a + ['-'] + b;
    IntToStringRoundTrip(s.date.year);
    IntToStringRoundTrip(s.date.month);
  }

  /** The labels in calendar order: what the month charts evidently mean to show. */
  function ChronologicalMonthLabels(inc: seq<Tx>, exp: seq<Tx>): seq<string> {
    SortBy(MonthKeys(inc, exp), CalendarLe)
  }

  lemma ChronologicalLabelsShape(inc: seq<Tx>, exp: seq<Tx>)
    ensures var r := ChronologicalMonthLabels(inc, exp);
      SortedBy(r, CalendarLe) && NoDuplicates(r)
      && forall k :: k in r <==> k in KeysOf(inc, MonthKey) || k in KeysOf(exp, MonthKey)
  {
    CalendarLeIsOrder();
    SortBySorted(MonthKeys(inc, exp), CalendarLe);
    SortByDistinct(MonthKeys(inc, exp), CalendarLe);
    assert forall k :: k in ChronologicalMonthLabels(inc, exp) <==> k in multiset(MonthKeys(inc, exp));
  }

  /**
   * With calendar order, a month that comes earlier is labelled earlier:
   * the property the text-sorted labels lose.
   */
  lemma ChronologicalLabelsInOrder(inc: seq<Tx>, exp: seq<Tx>, t1: Tx, t2: Tx)
    requires (t1 in inc || t1 in exp) && (t2 in inc || t2 in exp)
    requires t1.date.Some? && t2.date.Some? && t1.date.value.date.year >= 0 && t2.date.value.date.year >= 0
    requires MonthIndex(t1.date.value) < MonthIndex(t2.date.value)
    ensures var r := ChronologicalMonthLabels(inc, exp);
      exists i, j :: 0 <= i < j < |r| && r[i] == MonthKey(t1) && r[j] == MonthKey(t2)
  {
    var r := ChronologicalMonthLabels(inc, exp);
    ChronologicalLabelsShape(inc, exp);
    LabelMonthOf(t1);
    LabelMonthOf(t2);
    assert MonthKey(t1) in KeysOf(inc, MonthKey) || MonthKey(t1) in KeysOf(exp, MonthKey) by {
      if t1 in inc {
        var k :| 0 <= k < |inc| && inc[k] == t1;
        assert KeysOf(inc, MonthKey)[k] == MonthKey(t1);
      } else {
        var k :| 0 <= k < |exp| && exp[k] == t1;
        assert KeysOf(exp, MonthKey)[k] == MonthKey(t1);
      }
    }
    assert MonthKey(t2) in KeysOf(inc, MonthKey) || MonthKey(t2) in KeysOf(exp, MonthKey) by {
      if t2 in inc {
        var k :| 0 <= k < |inc| && inc[k] == t2;
        assert KeysOf(inc, MonthKey)[k] == MonthKey(t2);
      } else {
        var k :| 0 <= k < |exp| && exp[k] == t2;
        assert KeysOf(exp, MonthKey)[k] == MonthKey(t2);
      }
    }
    var i :| 0 <= i < |r| && r[i] == MonthKey(t1);
    var j :| 0 <= j < |r| && r[j] == MonthKey(t2);
    if j < i {
      assert false;
    }
    assert i != j;
  }

  // ---------------------------------------------------------------------
  // renderCharts: the month bars, the balance line and the savings line

  /** `cum = 0; list.map(x => cum += x)`. */
  function RunningTotals(nets: seq<real>): (r: seq<real>)
    ensures |r| == |nets|
  {
    if nets == [] then []
    else
      var before := RunningTotals(nets[..|nets| - 1]);
      before + [(if before == [] then 0.0 else before[|before| - 1]) + nets[|nets| - 1]]
  }

  /** Each running total is the sum of the list up to and including its entry. */
  lemma {:induction false} RunningTotalsSums(nets: seq<real>)
    ensures forall i :: 0 <= i < |nets| ==> RunningTotals(nets)[i] == Sum(nets[..i + 1])
    decreases |nets|
  {
    if nets != [] {
      var n := |nets| - 1;
      RunningTotalsSums(nets[..n]);
      forall i | 0 <= i < |nets| ensures RunningTotals(nets)[i] == Sum(nets[..i + 1]) {
        if i < n {
          assert nets[..n][..i + 1] == nets[..i + 1];
        } else {
          assert nets[..i + 1][..n] == nets[..n];
          if n > 0 {
            assert nets[..n][..n - 1 + 1] == nets[..n];
          }
        }
      }
    }
  }

  /** Entry by entry difference of two lists of the same length. */
  function Minus(xs: seq<real>, ys: seq<real>): (r: seq<real>)
    requires |xs| == |ys|
    ensures |r| == |xs| && forall i :: 0 <= i < |xs| ==> r[i] == xs[i] - ys[i]
  {
    seq(|xs|, i requires 0 <= i < |xs| => xs[i] - ys[i])
  }

  lemma {:induction false} SumMinus(xs: seq<real>, ys: seq<real>)
    requires |xs| == |ys|
    ensures Sum(Minus(xs, ys)) == Sum(xs) - Sum(ys)
    decreases |xs|
  {
    if xs != [] {
      var n := |xs| - 1;
      assert Minus(xs, ys)[..n] == Minus(xs[..n], ys[..n]);
      SumMinus(xs[..n], ys[..n]);
    }
  }

  /** The data of the month chart and the savings chart. */
  datatype MonthSeries = MonthSeries(labels: seq<string>, income: seq<real>, expenses: seq<real>,
                                     balance: seq<real>, savings: seq<real>, average: real)

  /** The series read along a list of month labels. */
  function SeriesOver(months: seq<string>, incomeData: seq<Tx>, expenseData: seq<Tx>): (r: MonthSeries)
    ensures |r.income| == |r.expenses| == |r.balance| == |r.savings| == |months|
  {
    var mInc, mExp := Tally(incomeData, MonthKey), Tally(expenseData, MonthKey);
    var income, expenses := Bars(months, mInc), Bars(months, mExp);
    var balance := Minus(income, expenses);
    var savings := RunningTotals(balance);
    MonthSeries(months, income, expenses, balance, savings, AverageLevel(savings))
  }

  /** `savings.length ? savings[savings.length - 1] / savings.length : 0`. */
  function AverageLevel(savings: seq<real>): (avg: real)
    ensures savings != [] ==> avg * (|savings| as real) == savings[|savings| - 1]
    ensures savings == [] ==> avg == 0.0
  {
    if |savings| > 0 then savings[|savings| - 1] / (|savings| as real) else 0.0
  }

  /** The charts of `renderCharts`, with their months in the text order the page sorts them in. */
  function ChartSeries(incomeData: seq<Tx>, expenseData: seq<Tx>): MonthSeries {
    SeriesOver(MonthLabels(incomeData, expenseData), incomeData, expenseData)
  }

  /** Along any list that names every month once, the income bars add up to the income and the expense bars to the expenses. */
  lemma SeriesOverSums(months: seq<string>, incomeData: seq<Tx>, expenseData: seq<Tx>)
    requires NoDuplicates(months)
    requires forall i :: 0 <= i < |incomeData| ==> MonthKey(incomeData[i]) in months
    requires forall i :: 0 <= i < |expenseData| ==> MonthKey(expenseData[i]) in months
    ensures var r := SeriesOver(months, incomeData, expenseData);
      Sum(r.income) == Total(incomeData) && Sum(r.expenses) == Total(expenseData)
      && Sum(r.balance) == Total(incomeData) - Total(expenseData)
  {
    var r := SeriesOver(months, incomeData, expenseData);
    TallySum(incomeData, MonthKey, months);
    TallySum(expenseData, MonthKey, months);
    SumMinus(r.income, r.expenses);
  }

  /**
   * The last running total is the sum of the whole list, and the average
   * line of the savings chart is that last point spread over the months.
   */
  lemma {:induction false} RunningTotalsLast(nets: seq<real>)
    ensures nets != [] ==> RunningTotals(nets)[|nets| - 1] == Sum(nets)
    decreases |nets|
  {
    if nets != [] {
      var n := |nets| - 1;
      RunningTotalsLast(nets[..n]);
    }
  }

  lemma KeysCovered(ts: seq<Tx>, key: Tx -> string)
    ensures forall i :: 0 <= i < |ts| ==> key(ts[i]) in KeysOf(ts, key)
  {
    forall i | 0 <= i < |ts| ensures key(ts[i]) in KeysOf(ts, key) {
      assert KeysOf(ts, key)[i] == key(ts[i]);
    }
  }

  /**
   * The charts account for every transaction, whatever order their months
   * come in: the last savings point is income minus expenses.
   */
  lemma ChartSeriesTotals(incomeData: seq<Tx>, expenseData: seq<Tx>)
    ensures var r := ChartSeries(incomeData, expenseData);
      Sum(r.income) == Total(incomeData) && Sum(r.expenses) == Total(expenseData)
      && (r.labels == [] <==> incomeData == [] && expenseData == [])
      && (r.labels != [] ==> r.savings[|r.labels| - 1] == Total(incomeData) - Total(expenseData))
  {
    var months := MonthLabels(incomeData, expenseData);
    MonthLabelsAsWritten(incomeData, expenseData);
    KeysCovered(incomeData, MonthKey);
    KeysCovered(expenseData, MonthKey);
    SeriesOverSums(months, incomeData, expenseData);
    var r := SeriesOver(months, incomeData, expenseData);
    assert r.savings == RunningTotals(r.balance);
    RunningTotalsLast(r.balance);
    if incomeData != [] {
      assert MonthKey(incomeData[0]) in months;
    } else if expenseData != [] {
      assert MonthKey(expenseData[0]) in months;
    }
  }

  // ---------------------------------------------------------------------
  // renderCharts: the expenses-by-category doughnut

  /** The comparator `(a, b) => b[1] - a[1]`: `a` stays before `b` when its value is not smaller. */
  predicate ValueDesc(a: (string, real), b: (string, real)) { a.1 >= b.1 }

  lemma ValueDescIsOrder()
    ensures Comparable(ValueDesc) && Transitive(ValueDesc)
  {
  }

  /** `Object.entries(expensesByCategory)`: one entry per category, in first-seen order. */
  function Entries(keys: seq<string>, m: map<string, real>): (r: seq<(string, real)>)
    ensures |r| == |keys| && forall i :: 0 <= i < |keys| ==> r[i] == (keys[i], Get(m, keys[i]))
  {
    seq(|keys|, i requires 0 <= i < |keys| => (keys[i], Get(m, keys[i])))
  }

  function Values(e: seq<(string, real)>): (r: seq<real>)
    ensures |r| == |e| && forall i :: 0 <= i < |e| ==> r[i] == e[i].1
  {
    seq(|e|, i requires 0 <= i < |e| => e[i].1)
  }

  /** `sortedCats`: the categories of the expenses, largest total first. */
  function SortedCategories(expenseData: seq<Tx>): seq<(string, real)> {
    var keys := Dedup(KeysOf(expenseData, CategoryOf));
    SortBy(Entries(keys, Tally(expenseData, CategoryOf)), ValueDesc)
  }

  lemma {:induction false} SumCons(a: real, xs: seq<real>)
    ensures Sum([a] + xs) == a + Sum(xs)
    decreases |xs|
  {
    if xs != [] {
      var n := |xs| - 1;
      assert ([a] + xs)[..|xs|] == [a] + xs[..n];
      SumCons(a, xs[..n]);
    }
  }

  lemma {:induction false} InsertValues(x: (string, real), s: seq<(string, real)>, le: ((string, real), (string, real)) -> bool)
    ensures Sum(Values(Insert(x, s, le))) == x.1 + Sum(Values(s))
    decreases |s|
  {
    if s == [] || le(x, s[0]) {
      assert Values([x] + s) == [x.1] + Values(s);
      SumCons(x.1, Values(s));
    } else {
      InsertValues(x, s[1..], le);
      assert Values([s[0]] + Insert(x, s[1..], le)) == [s[0].1] + Values(Insert(x, s[1..], le));
      assert Values(s) == [s[0].1] + Values(s[1..]);
      SumCons(s[0].1, Values(Insert(x, s[1..], le)));
      SumCons(s[0].1, Values(s[1..]));
    }
  }

  lemma {:induction false} SortValues(s: seq<(string, real)>, le: ((string, real), (string, real)) -> bool)
    ensures Sum(Values(SortBy(s, le))) == Sum(Values(s))
    decreases |s|
  {
    if s != [] {
      var t := SortBy(s[1..], le);
      assert SortBy(s, le) == Insert(s[0], t, le);
      SortValues(s[1..], le);
      InsertValues(s[0], t, le);
      assert Values(s) == [s[0].1] + Values(s[1..]);
      SumCons(s[0].1, Values(s[1..]));
    }
  }

  /** The doughnut's values run from the largest down and add up to `totalExp`, the total of the expenses. */
  lemma SortedCategoriesTotal(expenseData: seq<Tx>)
    ensures var e := SortedCategories(expenseData);
      SortedBy(e, ValueDesc) && Sum(Values(e)) == Total(expenseData)
  {
    var keys := Dedup(KeysOf(expenseData, CategoryOf));
    var entries := Entries(keys, Tally(expenseData, CategoryOf));
    ValueDescIsOrder();
    SortBySorted(entries, ValueDesc);
    SortValues(entries, ValueDesc);
    KeysCovered(expenseData, CategoryOf);
    TallySum(expenseData, CategoryOf, keys);
    assert Values(entries) == Bars(keys, Tally(expenseData, CategoryOf));
  }

  /** The doughnut names every category of the expenses, each once. */
  lemma SortedCategoriesNames(expenseData: seq<Tx>)
    ensures var e := SortedCategories(expenseData);
      (forall i, j :: 0 <= i < j < |e| ==> e[i].0 != e[j].0)
      && forall c :: (exists i :: 0 <= i < |e| && e[i].0 == c) <==> c in KeysOf(expenseData, CategoryOf)
  {
    var keys := Dedup(KeysOf(expenseData, CategoryOf));
    var entries := Entries(keys, Tally(expenseData, CategoryOf));
    var e := SortedCategories(expenseData);
    assert NoDuplicates(entries);
    SortByDistinct(entries, ValueDesc);
    assert forall x :: x in e <==> x in entries by {
      assert forall x :: x in e <==> x in multiset(entries);
    }
    forall i, j | 0 <= i < j < |e| ensures e[i].0 != e[j].0 {
      assert e[i] in entries && e[j] in entries;
    }
    forall c ensures (exists i :: 0 <= i < |e| && e[i].0 == c) <==> c in KeysOf(expenseData, CategoryOf) {
      if c in KeysOf(expenseData, CategoryOf) {
        var p :| 0 <= p < |keys| && keys[p] == c;
        assert entries[p] in e;
      }
      if exists i :: 0 <= i < |e| && e[i].0 == c {
        var i :| 0 <= i < |e| && e[i].0 == c;
        assert e[i] in entries;
      }
    }
  }

  /** Multiplying by a positive factor keeps an order. */
  lemma ScaleOrder(a: real, b: real, t: real)
    requires t > 0.0
    ensures a <= b <==> a * t <= b * t
    ensures a < b <==> a * t < b * t
  {
    if a <= b {
      assert (b - a) * t >= 0.0;
    } else {
      assert (a - b) * t > 0.0;
    }
    if a < b {
      assert (b - a) * t > 0.0;
    } else {
      assert (a - b) * t >= 0.0;
    }
  }
}
