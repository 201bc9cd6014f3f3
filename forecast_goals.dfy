/**
 * The goal list of the forecast page (`renderGoals` and `getAvailableFunds`
 * in forecast/static/forecast/script.js): how much each goal has
 * accumulated from the free money and the accounts linked to it, how far
 * along it is, and which of the six statuses it shows.
 */
module ForecastGoals {
  import opened Wrappers
  import opened ForecastScript

  /** An entry of `accounts`. */
  datatype Account = Account(id: int, name: string, amount: real)

  /**
   * An entry of `goals`. `target` is absent for a goal delivered without
   * one; every comparison with it is then false.
   */
  datatype Goal = Goal(id: int, name: string, target: Option<real>, accounts: seq<int>, useOnlyAccounts: bool)

  /** `getAvailableFunds()`, and `freeMoney` of `renderGoals`: all income less all expenses. */
  function AvailableFunds(incomeData: seq<Tx>, expenseData: seq<Tx>): real {
    Total(incomeData) - Total(expenseData)
  }

  /** `accounts.find(a => a.id === accId)`: the first account with that id. */
  function FindAccount(accounts: seq<Account>, id: int): (r: Option<Account>)
    ensures r.None? <==> forall i :: 0 <= i < |accounts| ==> accounts[i].id != id
    ensures r.Some? ==> exists i :: (0 <= i < |accounts| && accounts[i] == r.value && r.value.id == id
      && forall j :: 0 <= j < i ==> accounts[j].id != id)
  {
    if accounts == [] then None
    else if accounts[0].id == id then Some(accounts[0])
    else
      var r := FindAccount(accounts[1..], id);
      assert forall i :: 1 <= i < |accounts| ==> accounts[i] == accounts[1..][i - 1];
      r
  }

  /** `connectedAccountsList`: the accounts the goal's ids find, in the order of the ids. */
  function Connected(ids: seq<int>, accounts: seq<Account>): seq<Account> {
    if ids == [] then []
    else
      var before := Connected(ids[..|ids| - 1], accounts);
      match FindAccount(accounts, ids[|ids| - 1])
      case Some(a) => before + [a]
      case None => before
  }

  /** `accountsSum`: the amounts of a list of accounts added up. */
  function AccountsSum(list: seq<Account>): real {
    if list == [] then 0.0 else AccountsSum(list[..|list| - 1]) + list[|list| - 1].amount
  }

  lemma {:induction false} AccountsSumAppend(a: seq<Account>, b: seq<Account>)
    ensures AccountsSum(a + b) == AccountsSum(a) + AccountsSum(b)
    decreases |b|
  {
    if b == [] {
      assert a + b == a;
    } else {
      assert (a + b)[..|a + b| - 1] == a + b[..|b| - 1];
      AccountsSumAppend(a, b[..|b| - 1]);
    }
  }

  /** Linking ids one list after another connects the accounts of both, in that order. */
  lemma {:induction false} ConnectedAppend(ids: seq<int>, more: seq<int>, accounts: seq<Account>)
    ensures Connected(ids + more, accounts) == Connected(ids, accounts) + Connected(more, accounts)
    decreases |more|
  {
    if more == [] {
      assert ids + more == ids;
    } else {
      var n := |more| - 1;
      assert (ids + more)[..|ids + more| - 1] == ids + more[..n];
      ConnectedAppend(ids, more[..n], accounts);
    }
  }

  /** Ids that match no account connect nothing. */
  lemma {:induction false} UnknownIdsConnectNothing(ids: seq<int>, accounts: seq<Account>)
    requires forall i :: 0 <= i < |ids| ==> FindAccount(accounts, ids[i]).None?
    ensures Connected(ids, accounts) == []
    decreases |ids|
  {
    if ids != [] {
      UnknownIdsConnectNothing(ids[..|ids| - 1], accounts);
    }
  }

  /** `accumulated`: the linked accounts alone when the goal says so, otherwise the free money as well. */
  function Accumulated(g: Goal, accounts: seq<Account>, freeMoney: real): real {
    var linked := AccountsSum(Connected(g.accounts, accounts));
    if g.useOnlyAccounts then linked else freeMoney + linked
  }

  /**
   * Linking one more id adds the amount of the account it finds and
   * nothing when it finds none; the free money counts only for a goal not
   * restricted to its accounts.
   */
  lemma AccumulatedLinkOne(g: Goal, id: int, accounts: seq<Account>, freeMoney: real)
    ensures var more := g.(accounts := g.accounts + [id]);
      Accumulated(more, accounts, freeMoney)
        == Accumulated(g, accounts, freeMoney) + (match FindAccount(accounts, id) case Some(a) => a.amount case None => 0.0)
    ensures Accumulated(g.(accounts := []), accounts, freeMoney) == (if g.useOnlyAccounts then 0.0 else freeMoney)
  {
    var more := g.accounts + [id];
    assert more[..|more| - 1] == g.accounts;
    match FindAccount(accounts, id)
    case Some(a) =>
      AccountsSumAppend(Connected(g.accounts, accounts), [a]);
      assert (Connected(g.accounts, accounts) + [a])[..|Connected(g.accounts, accounts)|] == Connected(g.accounts, accounts);
    case None =>
  }

  /** `totalProgress`: the share of the target reached, capped at 100, and 0 without a positive target. */
  function GoalProgress(accumulated: real, target: Option<real>): (p: real)
    ensures p <= 100.0
    ensures !(target.Some? && target.value > 0.0) ==> p == 0.0
    ensures target.Some? && target.value > 0.0 && accumulated >= 0.0 ==> p >= 0.0
  {
    if target.Some? && target.value > 0.0 then
      (if accumulated / target.value * 100.0 < 100.0 then accumulated / target.value * 100.0 else 100.0)
    else 0.0
  }

  /** `canAfford`. */
  predicate CanAfford(accumulated: real, target: Option<real>) {
    target.Some? && accumulated >= target.value
  }

  /** `isOverBudget`. */
  predicate OverTarget(accumulated: real, target: Option<real>) {
    target.Some? && accumulated > target.value
  }

  datatype GoalStatus = Exceeded | Reached | AlmostThere | Halfway | SomeProgress | InProgress

  /** The first of the six cases that applies. */
  function StatusOfGoal(accumulated: real, target: Option<real>): (s: GoalStatus)
    ensures s == Exceeded ==> CanAfford(accumulated, target)
  {
    var p := GoalProgress(accumulated, target);
    if OverTarget(accumulated, target) then Exceeded
    else if CanAfford(accumulated, target) then Reached
    else if p >= 80.0 then AlmostThere
    else if p >= 50.0 then Halfway
    else if p >= 25.0 then SomeProgress
    else InProgress
  }

  /** Below a positive target, the progress reaches a level exactly when the amount reaches that share of the target. */
  lemma ShareBelowTarget(accumulated: real, t: real, c: real)
    requires t > 0.0 && accumulated < t
    ensures GoalProgress(accumulated, Some(t)) >= c <==> accumulated * 100.0 >= c * t
  {
    var q := accumulated / t;
    assert q * t == accumulated;
    assert q < 1.0;
    var p := GoalProgress(accumulated, Some(t));
    assert p == q * 100.0;
    ScaleOrder(c, p, t);
    assert p * t == q * t * 100.0;
  }

  /**
   * Each status in terms of the amount alone: over the target, exactly on
   * it, and below a positive target by the bands 80 %, 50 % and 25 %; with
   * no target a goal is always in progress.
   */
  lemma GoalStatusBands(accumulated: real, target: Option<real>)
    ensures StatusOfGoal(accumulated, target) == Exceeded <==> target.Some? && accumulated > target.value
    ensures StatusOfGoal(accumulated, target) == Reached <==> target.Some? && accumulated == target.value
    ensures target.None? ==> StatusOfGoal(accumulated, target) == InProgress && GoalProgress(accumulated, target) == 0.0
    ensures target.Some? && target.value > 0.0 && accumulated < target.value ==>
      var t := target.value;
      (StatusOfGoal(accumulated, target) == AlmostThere <==> accumulated >= t * 0.8)
      && (StatusOfGoal(accumulated, target) == Halfway <==> t * 0.5 <= accumulated < t * 0.8)
      && (StatusOfGoal(accumulated, target) == SomeProgress <==> t * 0.25 <= accumulated < t * 0.5)
      && (StatusOfGoal(accumulated, target) == InProgress <==> accumulated < t * 0.25)
    ensures target.Some? && target.value <= 0.0 && accumulated < target.value ==> StatusOfGoal(accumulated, target) == InProgress
  {
    if target.Some? && target.value > 0.0 && accumulated < target.value {
      var t := target.value;
      assert target == Some(t);
      ShareBelowTarget(accumulated, t, 80.0);
      ShareBelowTarget(accumulated, t, 50.0);
      ShareBelowTarget(accumulated, t, 25.0);
    }
  }

  /** What `renderGoals` shows for one goal. */
  datatype GoalLine = GoalLine(goal: Goal, connected: seq<Account>, accumulated: real, progress: real,
                               canAfford: bool, overTarget: bool, status: GoalStatus)

  function LineOfGoal(g: Goal, accounts: seq<Account>, freeMoney: real): (l: GoalLine)
    ensures l.goal == g && l.connected == Connected(g.accounts, accounts) && l.accumulated == Accumulated(g, accounts, freeMoney)
    ensures l.progress == GoalProgress(l.accumulated, g.target) && l.status == StatusOfGoal(l.accumulated, g.target)
    ensures l.canAfford == CanAfford(l.accumulated, g.target) && l.overTarget == OverTarget(l.accumulated, g.target)
  {
    var acc := Accumulated(g, accounts, freeMoney);
    GoalLine(g, Connected(g.accounts, accounts), acc, GoalProgress(acc, g.target),
             CanAfford(acc, g.target), OverTarget(acc, g.target), StatusOfGoal(acc, g.target))
  }

  /** `goals.forEach(...)` with `freeMoney` computed once from all the transactions. */
  function GoalLines(goals: seq<Goal>, accounts: seq<Account>, incomeData: seq<Tx>, expenseData: seq<Tx>): (ls: seq<GoalLine>)
    ensures |ls| == |goals|
    ensures forall i :: 0 <= i < |goals| ==> ls[i] == LineOfGoal(goals[i], accounts, AvailableFunds(incomeData, expenseData))
  {
    var free := AvailableFunds(incomeData, expenseData);
    seq(|goals|, i requires 0 <= i < |goals| => LineOfGoal(goals[i], accounts, free))
  }
}
