/**
 * The records of `main/models.py` and the properties computed on them:
 * the goal's calculated amount and progress percentage, the account's
 * amount display, the profile's full name, and the value floors and
 * uniqueness rule the model fields declare.
 *
 * Money is stored by `DecimalField(decimal_places=2)`, so it is modelled as
 * a whole number of kopecks. Timestamps appear only as their ISO text.
 */
module Models {
  import opened Wrappers
  import opened Text

  /** `datetime.isoformat()` text. */
  type Timestamp = string

  /** An amount in kopecks (hundredths of a rouble). */
  type Cents = int

  /** The fields of Django's `auth_user` row that the application reads. */
  datatype User = User(
    id: int, password: string, lastLogin: Option<Timestamp>, isSuperuser: bool,
    username: string, firstName: string, lastName: string, email: string,
    isStaff: bool, isActive: bool, dateJoined: Timestamp)

  datatype Account = Account(
    id: int, userId: int, name: string, amount: Cents, accountType: string,
    description: string, createdAt: Timestamp, updatedAt: Timestamp)

  /** `transactionType` is free text in the database; the choices list only 'income' and 'expense'. */
  datatype Transaction = Transaction(
    id: int, userId: int, name: string, amount: Cents, transactionType: string,
    category: string, date: Timestamp, accountId: Option<int>,
    createdAt: Timestamp, updatedAt: Timestamp)

  /** `linkedAccounts` holds the ids of the many-to-many `linked_accounts` relation, without repeats. */
  datatype Goal = Goal(
    id: int, userId: int, name: string, targetAmount: Cents, currentAmount: Cents,
    useOnlyLinkedAccounts: bool, linkedAccounts: seq<int>,
    createdAt: Timestamp, updatedAt: Timestamp)

  datatype BudgetCategory = BudgetCategory(
    id: int, userId: int, name: string, budget: Cents, emoji: string,
    createdAt: Timestamp, updatedAt: Timestamp)

  /** The three lockout fields of a profile. */
  datatype Lockout = Lockout(failedLoginAttempts: int, isBlocked: bool, blockedAt: Option<Timestamp>)

  /** The lockout state of a fresh profile (`tests.py:28-30`). */
  const Unlocked := Lockout(0, false, None)

  /**
   * The lockout states the login view and the admin actions can produce: at
   * most three counted failures, a block time exactly while blocked, and an
   * unblocked profile below the threshold.
   */
  predicate Coherent(s: Lockout) {
    0 <= s.failedLoginAttempts <= 3
    && (s.isBlocked <==> s.blockedAt.Some?)
    && (!s.isBlocked ==> s.failedLoginAttempts < 3)
  }

  /**
   * The user's profile. The views, the admin and the tests keep the login
   * lockout state (`failedLoginAttempts`, `isBlocked`, `blockedAt`) on it and
   * change it in place, so it is an object.
   */
  class UserProfile {
    const id: int
    const user: User
    var firstName: string
    var lastName: string
    var patronymic: string
    var createdAt: Timestamp
    var updatedAt: Timestamp
    var failedLoginAttempts: int
    var isBlocked: bool
    var blockedAt: Option<Timestamp>

    /** A new profile starts unblocked with no failed attempts. */
    constructor (id: int, user: User, firstName: string, lastName: string, patronymic: string, now: Timestamp)
      ensures this.id == id && this.user == user
      ensures this.firstName == firstName && this.lastName == lastName && this.patronymic == patronymic
      ensures createdAt == now && updatedAt == now
      ensures failedLoginAttempts == 0 && !isBlocked && blockedAt == None
    {
      this.id := id;
      this.user := user;
      this.firstName := firstName;
      this.lastName := lastName;
      this.patronymic := patronymic;
      createdAt := now;
      updatedAt := now;
      failedLoginAttempts := 0;
      isBlocked := false;
      blockedAt := None;
    }

    function Lock(): Lockout
      reads this
    {
      Lockout(failedLoginAttempts, isBlocked, blockedAt)
    }
  }

  // ---------------------------------------------------------------------
  // Goal.calculated_amount and Goal.progress_percent

  /** `sum(t.amount for t in user.transactions.all() if t.transaction_type == kind)`. */
  function SumOfKind(transactions: seq<Transaction>, userId: int, kind: string): Cents {
    if transactions == [] then 0
    else
      var t := transactions[|transactions| - 1];
      SumOfKind(transactions[..|transactions| - 1], userId, kind)
        + (if t.userId == userId && t.transactionType == kind then t.amount else 0)
  }

  /** The amount of the account with this id, 0 when there is none. */
  function AccountAmount(accounts: seq<Account>, id: int): Cents {
    if accounts == [] then 0
    else if accounts[0].id == id then accounts[0].amount
    else AccountAmount(accounts[1..], id)
  }

  /** `sum(acc.amount for acc in self.linked_accounts.all())`. */
  function LinkedSum(linked: seq<int>, accounts: seq<Account>): Cents {
    if linked == [] then 0 else AccountAmount(accounts, linked[0]) + LinkedSum(linked[1..], accounts)
  }

  /** `Goal.calculated_amount`: linked balances alone, or free money (income − expense) plus them. */
  function CalculatedAmount(g: Goal, transactions: seq<Transaction>, accounts: seq<Account>): Cents {
    var freeMoney := SumOfKind(transactions, g.userId, "income") - SumOfKind(transactions, g.userId, "expense");
    var linkedSum := LinkedSum(g.linkedAccounts, accounts);
    if g.useOnlyLinkedAccounts then linkedSum else freeMoney + linkedSum
  }

  /**
   * Python's `int(a / b)` for exact decimals: the quotient truncated toward
   * zero. Decimal's 28-digit division is exact enough for 15-digit amounts
   * that the truncated result is the same.
   */
  function TruncatedDiv(a: int, b: int): (q: int)
    requires b != 0
    ensures a >= 0 && b > 0 ==> q * b <= a < (q + 1) * b
    ensures a < 0 && b > 0 ==> (q - 1) * b < a <= q * b
  {
    var magnitude := (if a < 0 then -a else a) / (if b < 0 then -b else b);
    if (a < 0) != (b < 0) then -magnitude else magnitude
  }

  /**
   * `Goal.progress_percent` for a calculated amount and a target, both in
   * kopecks: 0 when the amount is zero or the target is zero, otherwise the
   * truncated percentage capped at 100.
   */
  function ProgressPercent(total: Cents, target: Cents): (p: int)
    ensures p <= 100
    ensures total == 0 || target == 0 ==> p == 0
    ensures total > 0 && target > 0 ==> 0 <= p
    ensures total < 0 && target > 0 ==> p <= 0
  {
    if total == 0 || target == 0 then 0
    else
      var percent := TruncatedDiv(total * 100, target);
      if percent < 100 then percent else 100
  }

  /** Below the cap, the percentage is the integer part of `total·100/target`; the cap is reached exactly at the target. */
  lemma ProgressIsTruncation(total: Cents, target: Cents)
    requires total > 0 && target > 0
    ensures var p := ProgressPercent(total, target);
      (total >= target <==> p == 100)
      && (p < 100 ==> p * target <= total * 100 < (p + 1) * target)
  {
    var n := TruncatedDiv(total * 100, target);
    assert n * target <= total * 100 < (n + 1) * target;
    if total >= target {
      if n < 100 {
        MulMonotone(n + 1, 100, target);
        MulMonotone(target, total, 100);
      }
    } else {
      if n >= 100 {
        MulMonotone(100, n, target);
        MulMonotone(total + 1, target, 100);
      }
    }
  }

  lemma MulMonotone(a: int, b: int, t: int)
    requires t > 0 && a <= b
    ensures a * t <= b * t
  {
    var d := b - a;
    assert b * t == a * t + d * t;
  }

  /** A transaction of another user, or of a goal that counts only linked accounts, leaves the amount alone. */
  lemma {:induction false} CalculatedAmountAppend(g: Goal, transactions: seq<Transaction>, accounts: seq<Account>, t: Transaction)
    ensures var delta :=
        if g.useOnlyLinkedAccounts || t.userId != g.userId then 0
        else if t.transactionType == "income" then t.amount
        else if t.transactionType == "expense" then -t.amount
        else 0;
      CalculatedAmount(g, transactions + [t], accounts) == CalculatedAmount(g, transactions, accounts) + delta
  {
    var s := transactions + [t];
    assert s[..|s| - 1] == transactions;
  }

  // ---------------------------------------------------------------------
  // Account.get_amount_display

  /**
   * Rounding kopecks to whole roubles, half to even (Decimal's default
   * context): the nearest rouble, and on a tie the even one.
   */
  function RoundHalfEven(c: nat): (r: nat)
    ensures -50 <= c - r * 100 <= 50
    ensures c % 100 != 50 ==> -50 < c - r * 100 < 50
    ensures c % 100 == 50 ==> r % 2 == 0
  {
    var q, rem := c / 100, c % 100;
    if rem > 50 then q + 1
    else if rem < 50 then q
    else if q % 2 == 0 then q else q + 1
  }

  /** Digits grouped by three from the right with a space: `f"{n:,}".replace(',', ' ')`. */
  function GroupThousands(digits: string): string
    decreases |digits|
  {
    if |digits| <= 3 then digits
    else GroupThousands(digits[..|digits| - 3]) + " " + digits[|digits| - 3..]
  }

  /** `Account.get_amount_display`: `f"{amount:,.0f}".replace(',', ' ')`. */
  function AmountDisplay(amount: Cents): string {
    var magnitude: nat := if amount < 0 then -amount else amount;
    (if amount < 0 then "-" else "") + GroupThousands(NatToString(RoundHalfEven(magnitude)))
  }

  function RemoveSpaces(s: string): string {
    if s == [] then [] else (if s[0] == ' ' then [] else [s[0]]) + RemoveSpaces(s[1..])
  }

  lemma {:induction false} RemoveSpacesAppend(a: string, b: string)
    ensures RemoveSpaces(a + b) == RemoveSpaces(a) + RemoveSpaces(b)
    decreases |a|
  {
    if a != [] {
      var head := if a[0] == ' ' then [] else [a[0]];
      assert (a + b)[0] == a[0] && (a + b)[1..] == a[1..] + b;
      RemoveSpacesAppend(a[1..], b);
      calc {
        RemoveSpaces(a + b);
        head + RemoveSpaces(a[1..] + b);
        head + (RemoveSpaces(a[1..]) + RemoveSpaces(b));
        (head + RemoveSpaces(a[1..])) + RemoveSpaces(b);
        RemoveSpaces(a) + RemoveSpaces(b);
      }
    } else {
      assert a + b == b;
    }
  }

  lemma {:induction false} RemoveSpacesDigits(s: string)
    requires AllDigits(s)
    ensures RemoveSpaces(s) == s
    decreases |s|
  {
    if s != [] {
      RemoveSpacesDigits(s[1..]);
    }
  }

  /** Grouping only inserts separators: removing the spaces gives the digits back. */
  lemma {:induction false} GroupThousandsDigits(digits: string)
    requires AllDigits(digits)
    ensures RemoveSpaces(GroupThousands(digits)) == digits
    ensures |GroupThousands(digits)| == |digits| + (if |digits| == 0 then 0 else (|digits| - 1) / 3)
    decreases |digits|
  {
    if |digits| <= 3 {
      RemoveSpacesDigits(digits);
    } else {
      var head, tail := digits[..|digits| - 3], digits[|digits| - 3..];
      var g := GroupThousands(head);
      assert GroupThousands(digits) == g + " " + tail;
      GroupThousandsDigits(head);
      RemoveSpacesAppend(g + " ", tail);
      RemoveSpacesAppend(g, " ");
      assert RemoveSpaces(" ") == [];
      RemoveSpacesDigits(tail);
      assert RemoveSpaces(GroupThousands(digits)) == head + tail;
      assert head + tail == digits;
    }
  }

  /** Every space-separated group has three digits, except the first, which has one to three. */
  lemma {:induction false} GroupThousandsGroups(digits: string)
    requires AllDigits(digits) && |digits| >= 1
    ensures var groups := Split(GroupThousands(digits), ' ');
      1 <= |groups[0]| <= 3
      && (forall k :: 1 <= k < |groups| ==> |groups[k]| == 3)
      && (forall k :: 0 <= k < |groups| ==> AllDigits(groups[k]))
    decreases |digits|
  {
    if |digits| <= 3 {
      SplitFree(digits, ' ');
    } else {
      var head, tail := digits[..|digits| - 3], digits[|digits| - 3..];
      GroupThousandsGroups(head);
      SplitAppendGroup(GroupThousands(head), tail);
    }
  }

  /** Splitting `a + " " + tail` when `tail` has no space: the groups of `a`, then `tail`. */
  lemma {:induction false} SplitAppendGroup(a: string, tail: string)
    requires Free(tail, ' ')
    ensures Split(a + " " + tail, ' ') == Split(a, ' ') + [tail]
    decreases |a|
  {
    if a == [] {
      assert a + " " + tail == [' '] + tail;
      SplitFree(tail, ' ');
    } else {
      assert (a + " " + tail)[1..] == a[1..] + " " + tail;
      SplitAppendGroup(a[1..], tail);
    }
  }

  /** The displayed amount, read without its spaces, is the sign and the rounded roubles. */
  lemma AmountDisplayDigits(amount: Cents)
    ensures var magnitude: nat := if amount < 0 then -amount else amount;
      RemoveSpaces(AmountDisplay(amount))
        == (if amount < 0 then "-" else "") + NatToString(RoundHalfEven(magnitude))
      && -50 <= magnitude - RoundHalfEven(magnitude) * 100 <= 50
  {
    var magnitude: nat := if amount < 0 then -amount else amount;
    var digits := NatToString(RoundHalfEven(magnitude));
    GroupThousandsDigits(digits);
    RemoveSpacesAppend(if amount < 0 then "-" else "", GroupThousands(digits));
  }

  // ---------------------------------------------------------------------
  // UserProfile.__str__ and UserProfile.full_name

  /** `"{last} {first}"`, followed by `" {patronymic}"` when the patronymic is non-empty. */
  function FullName(lastName: string, firstName: string, patronymic: string): string {
    lastName + " " + firstName + (if patronymic != "" then " " + patronymic else "")
  }

  /** When the parts hold no spaces, the full name splits back into them, in order. */
  lemma FullNameParts(lastName: string, firstName: string, patronymic: string)
    requires Free(lastName, ' ') && Free(firstName, ' ') && Free(patronymic, ' ')
    ensures Split(FullName(lastName, firstName, patronymic), ' ')
      == [lastName, firstName] + (if patronymic != "" then [patronymic] else [])
  {
    if patronymic != "" {
      assert FullName(lastName, firstName, patronymic) == lastName + [' '] + (firstName + [' '] + patronymic);
      SplitAfter(lastName, ' ', firstName + [' '] + patronymic);
      SplitAfter(firstName, ' ', patronymic);
      SplitFree(patronymic, ' ');
    } else {
      assert FullName(lastName, firstName, patronymic) == lastName + [' '] + firstName;
      SplitAfter(lastName, ' ', firstName);
      SplitFree(firstName, ' ');
    }
  }

  // ---------------------------------------------------------------------
  // Field constraints

  /** `MinValueValidator(Decimal('0.00'))` on `Account.amount`. */
  predicate AccountFloor(a: Account) { a.amount >= 0 }

  /** `MinValueValidator(Decimal('0.01'))` on `Transaction.amount`. */
  predicate TransactionFloor(t: Transaction) { t.amount >= 1 }

  /** Floors on `Goal.target_amount` (0.01) and `Goal.current_amount` (0.00). */
  predicate GoalFloor(g: Goal) { g.targetAmount >= 1 && g.currentAmount >= 0 }

  /** `MinValueValidator(Decimal('0.00'))` on `BudgetCategory.budget`. */
  predicate CategoryFloor(c: BudgetCategory) { c.budget >= 0 }

  /** `unique_together = [['user', 'name']]` on `BudgetCategory`. */
  predicate UniqueCategoryNames(categories: seq<BudgetCategory>) {
    forall i, j :: 0 <= i < j < |categories| && categories[i].userId == categories[j].userId
      ==> categories[i].name != categories[j].name
  }

  /** The database tables the views and utilities read and write. Ids come from one counter. */
  datatype Store = Store(
    accounts: seq<Account>, transactions: seq<Transaction>, goals: seq<Goal>,
    categories: seq<BudgetCategory>, nextId: int)

  // ---------------------------------------------------------------------
  // The rows of one user (`user.accounts.all()` and the like), in table order

  function AccountsOf(accounts: seq<Account>, userId: int): (r: seq<Account>)
    ensures forall a :: a in r <==> a in accounts && a.userId == userId
    ensures |r| <= |accounts|
  {
    if accounts == [] then []
    else
      var last := accounts[|accounts| - 1];
      AccountsOf(accounts[..|accounts| - 1], userId) + (if last.userId == userId then [last] else [])
  }

  function TransactionsOf(transactions: seq<Transaction>, userId: int): (r: seq<Transaction>)
    ensures forall t :: t in r <==> t in transactions && t.userId == userId
    ensures |r| <= |transactions|
  {
    if transactions == [] then []
    else
      var last := transactions[|transactions| - 1];
      TransactionsOf(transactions[..|transactions| - 1], userId) + (if last.userId == userId then [last] else [])
  }

  function GoalsOf(goals: seq<Goal>, userId: int): (r: seq<Goal>)
    ensures forall g :: g in r <==> g in goals && g.userId == userId
    ensures |r| <= |goals|
  {
    if goals == [] then []
    else
      var last := goals[|goals| - 1];
      GoalsOf(goals[..|goals| - 1], userId) + (if last.userId == userId then [last] else [])
  }

  function CategoriesOf(categories: seq<BudgetCategory>, userId: int): (r: seq<BudgetCategory>)
    ensures forall c :: c in r <==> c in categories && c.userId == userId
    ensures |r| <= |categories|
  {
    if categories == [] then []
    else
      var last := categories[|categories| - 1];
      CategoriesOf(categories[..|categories| - 1], userId) + (if last.userId == userId then [last] else [])
  }
}
