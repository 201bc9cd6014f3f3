/**
 * `main/json_utils.py`: the structure check of an uploaded JSON file, the
 * import of a user's accounts, transactions, goals and budget categories
 * from it, and the shape of the export.
 *
 * The file arrives already parsed (`json.loads` is not modelled): a parse
 * failure is `Malformed`, a success a `Json` value. Python's own texts for
 * floats, lists and objects (`str(value)`), `datetime.fromisoformat` and the
 * clock are parameters, collected in `Env`.
 */
module JsonIO {
  import opened Wrappers
  import opened Text
  import opened Models
  import Backup

  /**
   * A value `json.loads` returns. `JFloat` is a JSON number with a fraction
   * or exponent whose value is `cents / 100`.
   */
  datatype Json =
    | JNull
    | JBool(b: bool)
    | JInt(i: int)
    | JFloat(cents: int)
    | JString(s: string)
    | JArray(items: seq<Json>)
    | JObject(fields: map<string, Json>)

  /** The outcome of `json.loads(json_content)`. */
  datatype Parsed = Parsed(value: Json) | Malformed(detail: string)

  /** What the import reads from outside the file. */
  datatype Env = Env(
    now: Timestamp,                          // `timezone.now()`
    fromIso: string -> Option<Timestamp>,    // `datetime.fromisoformat`, made aware
    pyStr: Json -> string)                   // `str(value)` for floats, lists and objects

  /** Python's truth value of a loaded value. */
  predicate Truthy(v: Json) {
    match v
    case JNull => false
    case JBool(b) => b
    case JInt(i) => i != 0
    case JFloat(c) => c != 0
    case JString(s) => s != ""
    case JArray(items) => items != []
    case JObject(fields) => |fields| != 0
  }

  /** `type(value).__name__`. */
  function TypeName(v: Json): string {
    match v
    case JNull => "NoneType"
    case JBool(_) => "bool"
    case JInt(_) => "int"
    case JFloat(_) => "float"
    case JString(_) => "str"
    case JArray(_) => "list"
    case JObject(_) => "dict"
  }

  // ---------------------------------------------------------------------
  // validate_json_structure

  const AllowedKeys: set<string> := {"accounts", "transactions", "goals", "budget_categories"}

  const ParseErrorPrefix := "Ошибка парсинга JSON: "
  const NotAnObject := "JSON должен быть объектом"
  const UnknownKeysPrefix := "Неизвестные ключи: "
  const StructureOk := "Структура JSON корректна"

  function NotArrayMessage(key: string): string {
    "\"" + key + "\" должен быть массивом"
  }

  /** The key is present and its value is not a list. */
  predicate NotArray(fields: map<string, Json>, key: string) {
    key in fields && !fields[key].JArray?
  }

  /** The message of one section check: present and not a list. */
  function SectionError(fields: map<string, Json>, key: string): seq<string> {
    if NotArray(fields, key) then [NotArrayMessage(key)] else []
  }

  /** The messages of the four section checks, in the order they run. */
  function StructureErrors(fields: map<string, Json>): seq<string> {
    SectionError(fields, "accounts") + SectionError(fields, "transactions") + SectionError(fields, "goals")
    + SectionError(fields, "budget_categories")
  }

  /** There are no structure errors exactly when every section that is present is a list. */
  lemma NoStructureErrors(fields: map<string, Json>)
    ensures StructureErrors(fields) == [] <==> forall key :: key in AllowedKeys ==> !NotArray(fields, key)
  {
    if StructureErrors(fields) == [] {
      forall key | key in AllowedKeys ensures !NotArray(fields, key) {
        assert key == "accounts" || key == "transactions" || key == "goals" || key == "budget_categories";
      }
    }
  }

  /**
   * `validate_json_structure`. `listed` is the order in which the set of
   * unknown keys was iterated for the message; Python leaves it unspecified.
   */
  method ValidateJsonStructure(input: Parsed) returns (ok: bool, message: string, listed: seq<string>)
    ensures input.Malformed? ==> !ok && message == ParseErrorPrefix + input.detail
    ensures input.Parsed? && !input.value.JObject? ==> !ok && message == NotAnObject
    ensures input.Parsed? && input.value.JObject? && input.value.fields.Keys - AllowedKeys != {} ==>
      !ok && message == UnknownKeysPrefix + Join(", ", listed)
      && |listed| == |input.value.fields.Keys - AllowedKeys|
      && forall key :: key in listed <==> key in input.value.fields.Keys - AllowedKeys
    ensures input.Parsed? && input.value.JObject? && input.value.fields.Keys - AllowedKeys == {} ==>
      var errors := StructureErrors(input.value.fields);
      (ok <==> errors == []) && message == if ok then StructureOk else Join("; ", errors)
  {
    listed := [];
    if input.Malformed? {
      return false, ParseErrorPrefix + input.detail, listed;
    }
    if !input.value.JObject? {
      return false, NotAnObject, listed;
    }
    var data := input.value.fields;
    var unknown := data.Keys - AllowedKeys;
    if unknown != {} {
      listed := ListKeys(unknown);
      return false, UnknownKeysPrefix + Join(", ", listed), listed;
    }
    var errors := CheckSections(data);
    if errors != [] {
      return false, Join("; ", errors), listed;
    }
    return true, StructureOk, listed;
  }

  /** Iterating a set of keys: each key once, in some order. */
  method ListKeys(keys: set<string>) returns (listed: seq<string>)
    ensures |listed| == |keys| && forall key :: key in listed <==> key in keys
  {
    listed := [];
    var rest := keys;
    while rest != {}
      invariant rest <= keys
      invariant |listed| + |rest| == |keys|
      invariant forall key :: key in listed <==> key in keys - rest
      decreases |rest|
    {
      var key :| key in rest;
      listed := listed + [key];
      rest := rest - {key};
    }
  }

  /** The four `if ... errors.append(...)` checks. */
  method CheckSections(data: map<string, Json>) returns (errors: seq<string>)
    ensures errors == StructureErrors(data)
  {
    errors := [];
    if "accounts" in data && !data["accounts"].JArray? {
      errors := errors + [NotArrayMessage("accounts")];
    }
    assert errors == SectionError(data, "accounts");
    if "transactions" in data && !data["transactions"].JArray? {
      errors := errors + [NotArrayMessage("transactions")];
    }
    assert errors == SectionError(data, "accounts") + SectionError(data, "transactions");
    if "goals" in data && !data["goals"].JArray? {
      errors := errors + [NotArrayMessage("goals")];
    }
    assert errors == SectionError(data, "accounts") + SectionError(data, "transactions") + SectionError(data, "goals");
    if "budget_categories" in data && !data["budget_categories"].JArray? {
      errors := errors + [NotArrayMessage("budget_categories")];
    }
  }

  // ---------------------------------------------------------------------
  // Reading the values of one row

  /** The whole and fractional digit runs of a text with at most one point. */
  function DecimalParts(s: string): Option<(string, string)> {
    var parts := Split(s, '.');
    if |parts| == 1 then Some((parts[0], "")) else if |parts| == 2 then Some((parts[0], parts[1])) else None
  }

  /** The kopecks of at most two decimal digits: ".5" is 50 kopecks. */
  function FractionCents(f: string): (r: nat)
    requires AllDigits(f) && |f| <= 2
    ensures r < 100
  {
    if |f| == 0 then 0 else if |f| == 1 then DigitValue(f[0]) * 10 else DigitValue(f[0]) * 10 + DigitValue(f[1])
  }

  /**
   * `Decimal(text)` for an unsigned text: digits, a point and at most two
   * decimal digits, with digits on at least one side of the point. The value
   * is in kopecks.
   */
  function ParseUnsignedDecimal(s: string): Option<nat> {
    match DecimalParts(s)
    case None => None
    case Some((whole, frac)) =>
      if AllDigits(whole) && AllDigits(frac) && |frac| <= 2 && (whole != [] || frac != [])
      then Some(DigitsValue(whole) * 100 + FractionCents(frac))
      else None
  }

  /** `Decimal(text)`: surrounding whitespace is ignored, and an optional sign leads. */
  function ParseDecimal(text: string): Option<Cents> {
    var t := Strip(text);
    var signed := t != [] && (t[0] == '-' || t[0] == '+');
    match ParseUnsignedDecimal(if signed then t[1..] else t)
    case Some(n) => Some(if signed && t[0] == '-' then -(n as int) else n as int)
    case None => None
  }

  /** A text that neither starts nor ends with whitespace is its own `strip()`. */
  lemma StripUnpadded(s: string)
    requires s != [] && !IsSpace(s[0]) && !IsSpace(s[|s| - 1])
    ensures Strip(s) == s
  {
    assert TrimStart(s) == s;
  }

  /** Digits hold no decimal point. */
  lemma DigitsFree(s: string)
    requires AllDigits(s)
    ensures Free(s, '.')
  {
  }

  lemma DigitNotSpace(c: char)
    requires IsDigit(c)
    ensures !IsSpace(c) && c != '-' && c != '+'
  {
  }

  /** A signed text that starts and ends with a digit is read through its unsigned part. */
  lemma ParseSigned(negative: bool, u: string, n: nat)
    requires u != [] && IsDigit(u[0]) && IsDigit(u[|u| - 1]) && ParseUnsignedDecimal(u) == Some(n)
    ensures ParseDecimal((if negative then "-" else "") + u) == Some(if negative then -(n as int) else n as int)
  {
    if negative {
      ParseNegative(u, n);
    } else {
      ParsePositive(u, n);
      assert "" + u == u;
    }
  }

  lemma ParsePositive(u: string, n: nat)
    requires u != [] && IsDigit(u[0]) && IsDigit(u[|u| - 1]) && ParseUnsignedDecimal(u) == Some(n)
    ensures ParseDecimal(u) == Some(n as int)
  {
    DigitNotSpace(u[0]);
    DigitNotSpace(u[|u| - 1]);
    StripUnpadded(u);
  }

  lemma ParseNegative(u: string, n: nat)
    requires u != [] && IsDigit(u[0]) && IsDigit(u[|u| - 1]) && ParseUnsignedDecimal(u) == Some(n)
    ensures ParseDecimal("-" + u) == Some(-(n as int))
  {
    var t := "-" + u;
    assert t[0] == '-' && t[1..] == u && t[|t| - 1] == u[|u| - 1];
    assert !IsSpace('-');
    DigitNotSpace(u[|u| - 1]);
    StripUnpadded(t);
  }

  /** A run of digits, a point and a run of digits split at the point. */
  lemma PartsAtPoint(whole: string, frac: string)
    requires AllDigits(whole) && AllDigits(frac)
    ensures DecimalParts(whole + "." + frac) == Some((whole, frac))
  {
    DigitsFree(whole);
    SplitAfter(whole, '.', frac);
    assert whole + "." + frac == whole + ['.'] + frac;
    DigitsFree(frac);
    SplitFree(frac, '.');
  }

  lemma UnsignedCentsTextParses(a: nat)
    ensures var u := Backup.UnsignedCentsText(a);
      u != [] && IsDigit(u[0]) && IsDigit(u[|u| - 1]) && ParseUnsignedDecimal(u) == Some(a)
  {
    var q, r := a / 100, a % 100;
    var whole := NatToString(q);
    var frac := [DigitChar(r / 10), DigitChar(r % 10)];
    var u := whole + "." + frac;
    assert u == Backup.UnsignedCentsText(a);
    PartsAtPoint(whole, frac);
    NatToStringValue(q);
    assert FractionCents(frac) == r;
    assert u[0] == whole[0] && u[|u| - 1] == frac[1];
  }

  /** `Decimal(str(amount))` reads back the amount the export writes. */
  lemma ParseCentsText(c: Cents)
    ensures ParseDecimal(Backup.CentsText(c)) == Some(c)
  {
    var a: nat := if c < 0 then -c else c;
    UnsignedCentsTextParses(a);
    ParseSigned(c < 0, Backup.UnsignedCentsText(a), a);
  }

  /** `Decimal(str(value))`; `None` where Decimal raises `InvalidOperation`. */
  function DecimalOf(v: Json): Option<Cents> {
    match v
    case JInt(i) => Some(i * 100)
    case JFloat(c) => Some(c)
    case JString(s) => ParseDecimal(s)
    case _ => None   // str() gives "None", "True", "False", "[...]" or "{...}"
  }

  /** An exported amount, a text, reads back as that amount. */
  lemma DecimalOfCentsText(c: Cents)
    ensures DecimalOf(JString(Backup.CentsText(c))) == Some(c)
  {
    ParseCentsText(c);
  }

  /** `row.get(key, default)`. */
  function Get(fields: map<string, Json>, key: string, default: Json): Json {
    if key in fields then fields[key] else default
  }

  /** What a text column receives: text, or `None` for a JSON null. */
  function TextOf(v: Json, env: Env): Option<string> {
    match v
    case JNull => None
    case JString(s) => Some(s)
    case JBool(b) => Some(if b then "True" else "False")
    case JInt(i) => Some(IntToString(i))
    case _ => Some(env.pyStr(v))
  }

  /** `row.get(key, default)` for a text column. */
  function TextField(fields: map<string, Json>, key: string, default: string, env: Env): Option<string> {
    if key in fields then TextOf(fields[key], env) else Some(default)
  }

  /** Why a row was not imported. */
  datatype Problem =
    | NoGet(typeName: string)     // the row is not an object: `AttributeError`
    | InvalidDecimal              // `Decimal(str(...))` raised `InvalidOperation`
    | AmountNotPositive           // the three `ValueError`s of the value checks
    | TargetNotPositive
    | CurrentNegative
    | CategoryExists              // the `ValueError` of the duplicate-name check
    | Unhashable(typeName: string)   // `account_id in accounts_map` raised `TypeError`
    | NotNull(column: string)     // the INSERT failed: `IntegrityError` for a null text column
    | NotUnique                   // the INSERT failed: `IntegrityError` for a duplicate category name

  /** `str(e)` of the exception. */
  function ProblemText(p: Problem): string {
    match p
    case NoGet(t) => "'" + t + "' object has no attribute 'get'"
    case InvalidDecimal => "[<class 'decimal.ConversionSyntax'>]"
    case AmountNotPositive => "Сумма должна быть больше нуля"
    case TargetNotPositive => "Целевая сумма должна быть больше нуля"
    case CurrentNegative => "Текущая сумма не может быть отрицательной"
    case CategoryExists => "Категория с таким названием уже существует"
    case Unhashable(t) => "unhashable type: '" + t + "'"
    case NotNull(column) => "NOT NULL constraint failed: " + column
    case NotUnique => "UNIQUE constraint failed: main_budgetcategory.user_id, main_budgetcategory.name"
  }

  /** `f"Строка {idx+1}: {str(e)}"`. */
  function RowMessage(idx: nat, p: Problem): string {
    "Строка " + NatToString(idx + 1) + ": " + ProblemText(p)
  }

  /** The default name of row `idx`: `f'{prefix} {idx+1}'`. */
  function DefaultName(prefix: string, idx: nat): string {
    prefix + " " + NatToString(idx + 1)
  }

  // ---------------------------------------------------------------------
  // One row of each section

  /** The body of the `try` for one account row. The new row takes `id`. */
  function AccountRow(idx: nat, row: Json, userId: int, id: int, env: Env): (r: Result<Account, Problem>)
    ensures r.Ok? <==> (row.JObject? && DecimalOf(Get(row.fields, "amount", JInt(0))).Some?
      && TextField(row.fields, "name", DefaultName("Счет", idx), env).Some?
      && TextField(row.fields, "account_type", "other", env).Some?
      && TextField(row.fields, "description", "", env).Some?)
    ensures r.Ok? ==> (r.value.id == id && r.value.userId == userId
      && Some(r.value.amount) == DecimalOf(Get(row.fields, "amount", JInt(0)))
      && Some(r.value.name) == TextField(row.fields, "name", DefaultName("Счет", idx), env)
      && r.value.createdAt == env.now && r.value.updatedAt == env.now)
  {
    if !row.JObject? then Err(NoGet(TypeName(row)))
    else
      var f := row.fields;
      match DecimalOf(Get(f, "amount", JInt(0)))
      case None => Err(InvalidDecimal)
      case Some(amount) =>
        var name := TextField(f, "name", DefaultName("Счет", idx), env);
        var accountType := TextField(f, "account_type", "other", env);
        var description := TextField(f, "description", "", env);
        // the INSERT checks the NOT NULL columns in table order
        if name.None? then Err(NotNull("main_account.name"))
        else if accountType.None? then Err(NotNull("main_account.account_type"))
        else if description.None? then Err(NotNull("main_account.description"))
        else Ok(Account(id, userId, name.value, amount, accountType.value, description.value, env.now, env.now))
  }

  /** `date_str.replace('Z', '+00:00')`. */
  function ReplaceZ(s: string): (r: string)
    ensures forall k :: 0 <= k < |r| ==> r[k] != 'Z'
  {
    if s == [] then []
    else (if s[0] == 'Z' then "+00:00" else [s[0]]) + ReplaceZ(s[1..])
  }

  /**
   * The transaction's date: the parsed `date` text, or the import time when
   * it is absent, empty, not a text or not an ISO date (the bare `except`).
   */
  function TransactionDate(v: Json, env: Env): Timestamp {
    if Truthy(v) && v.JString? then
      match env.fromIso(ReplaceZ(v.s))
      case Some(when) => when
      case None => env.now
    else env.now
  }

  /**
   * `account_id in accounts_map` for a truthy `account_id`: the key it
   * matches among the user's account ids, or the `TypeError` a list or an
   * object raises. Python's `True` and `2.0` hash like `1` and `2`.
   */
  function AccountLink(v: Json, accountIds: set<int>): Result<Option<int>, Problem> {
    if !Truthy(v) then Ok(None)
    else
      match v
      case JBool(_) => Ok(if 1 in accountIds then Some(1) else None)
      case JInt(i) => Ok(if i in accountIds then Some(i) else None)
      case JFloat(c) => Ok(if c % 100 == 0 && c / 100 in accountIds then Some(c / 100) else None)
      case JArray(_) => Err(Unhashable("list"))
      case JObject(_) => Err(Unhashable("dict"))
      case _ => Ok(None)
  }

  /** A linked account is always one of the user's accounts. */
  lemma AccountLinkOwned(v: Json, accountIds: set<int>)
    ensures AccountLink(v, accountIds).Ok? && AccountLink(v, accountIds).value.Some? ==>
      AccountLink(v, accountIds).value.value in accountIds
    ensures AccountLink(v, accountIds).Err? <==> Truthy(v) && (v.JArray? || v.JObject?)
  {
  }

  /** The body of the `try` for one transaction row, given the ids of the user's accounts. */
  function TransactionRow(idx: nat, row: Json, userId: int, id: int, accountIds: set<int>, env: Env)
    : (r: Result<Transaction, Problem>)
    ensures r.Ok? ==> (TransactionFloor(r.value) && r.value.id == id && r.value.userId == userId
      && (r.value.accountId.Some? ==> r.value.accountId.value in accountIds)
      && r.value.createdAt == env.now && r.value.updatedAt == env.now)
    ensures (row.JObject? && DecimalOf(Get(row.fields, "amount", JInt(0))).Some?
      && DecimalOf(Get(row.fields, "amount", JInt(0))).value <= 0) ==> r == Err(AmountNotPositive)
  {
    if !row.JObject? then Err(NoGet(TypeName(row)))
    else
      var f := row.fields;
      match DecimalOf(Get(f, "amount", JInt(0)))
      case None => Err(InvalidDecimal)
      case Some(amount) =>
        if amount <= 0 then Err(AmountNotPositive)
        else
          var date := TransactionDate(Get(f, "date", JNull), env);
          match AccountLink(Get(f, "account_id", JNull), accountIds)
          case Err(p) => Err(p)
          case Ok(account) =>
            var name := TextField(f, "name", DefaultName("Транзакция", idx), env);
            var transactionType := TextField(f, "transaction_type", "expense", env);
            var category := TextField(f, "category", "другое", env);
            if name.None? then Err(NotNull("main_transaction.name"))
            else if transactionType.None? then Err(NotNull("main_transaction.transaction_type"))
            else if category.None? then Err(NotNull("main_transaction.category"))
            else Ok(Transaction(id, userId, name.value, amount, transactionType.value, category.value, date, account, env.now, env.now))
  }

  /** The body of the `try` for one goal row. */
  function GoalRow(idx: nat, row: Json, userId: int, id: int, env: Env): (r: Result<Goal, Problem>)
    ensures r.Ok? <==> (row.JObject? && DecimalOf(Get(row.fields, "target_amount", JInt(0))).Some?
      && DecimalOf(Get(row.fields, "target_amount", JInt(0))).value >= 1
      && DecimalOf(Get(row.fields, "current_amount", JInt(0))).Some?
      && DecimalOf(Get(row.fields, "current_amount", JInt(0))).value >= 0
      && TextField(row.fields, "name", DefaultName("Цель", idx), env).Some?)
    ensures r.Ok? ==> (GoalFloor(r.value) && r.value.id == id && r.value.userId == userId
      && !r.value.useOnlyLinkedAccounts && r.value.linkedAccounts == []
      && r.value.createdAt == env.now && r.value.updatedAt == env.now)
  {
    if !row.JObject? then Err(NoGet(TypeName(row)))
    else
      var f := row.fields;
      match DecimalOf(Get(f, "target_amount", JInt(0)))
      case None => Err(InvalidDecimal)
      case Some(target) =>
        if target <= 0 then Err(TargetNotPositive)
        else
          match DecimalOf(Get(f, "current_amount", JInt(0)))
          case None => Err(InvalidDecimal)
          case Some(current) =>
            if current < 0 then Err(CurrentNegative)
            else
              match TextField(f, "name", DefaultName("Цель", idx), env)
              case None => Err(NotNull("main_goal.name"))
              case Some(name) => Ok(Goal(id, userId, name, target, current, false, [], env.now, env.now))
  }

  /** The user already has a category of this name. */
  predicate NameTaken(categories: seq<BudgetCategory>, userId: int, name: string) {
    exists k :: 0 <= k < |categories| && categories[k].userId == userId && categories[k].name == name
  }

  /**
   * The body of the `try` for one category row. The duplicate check looks up
   * `row.get('name')`, so a row without a name passes it and meets the
   * database's uniqueness rule instead.
   */
  function CategoryRow(idx: nat, row: Json, userId: int, id: int, categories: seq<BudgetCategory>, env: Env)
    : (r: Result<BudgetCategory, Problem>)
    ensures r.Ok? ==> (!NameTaken(categories, userId, r.value.name) && r.value.id == id && r.value.userId == userId
      && r.value.createdAt == env.now && r.value.updatedAt == env.now)
    ensures (row.JObject? && DecimalOf(Get(row.fields, "budget", JInt(0))).Some? && "name" in row.fields
      && TextOf(row.fields["name"], env).Some? && NameTaken(categories, userId, TextOf(row.fields["name"], env).value))
      ==> r == Err(CategoryExists)
  {
    if !row.JObject? then Err(NoGet(TypeName(row)))
    else
      var f := row.fields;
      match DecimalOf(Get(f, "budget", JInt(0)))
      case None => Err(InvalidDecimal)
      case Some(budget) =>
        var asked := TextOf(Get(f, "name", JNull), env);
        if asked.Some? && NameTaken(categories, userId, asked.value) then Err(CategoryExists)
        else
          var name := TextField(f, "name", DefaultName("Категория", idx), env);
          var emoji := TextField(f, "emoji", "", env);
          if name.None? then Err(NotNull("main_budgetcategory.name"))
          else if emoji.None? then Err(NotNull("main_budgetcategory.emoji"))
          else if NameTaken(categories, userId, name.value) then Err(NotUnique)
          else Ok(BudgetCategory(id, userId, name.value, budget, emoji.value, env.now, env.now))
  }

  // ---------------------------------------------------------------------
  // The four sections of import_user_data_from_json

  /** `{'created': n, 'errors': [...]}` of one section. */
  datatype SectionResult = SectionResult(created: nat, errors: seq<string>)

  const Untouched := SectionResult(0, [])

  /**
   * The loop over the account rows: each row is created or yields one error
   * line, the other tables are untouched, and the new rows take consecutive
   * ids from the counter.
   */
  function AccountImport(rows: seq<Json>, db: Store, userId: int, env: Env): (r: (Store, SectionResult))
    ensures r.1.created + |r.1.errors| == |rows|
    ensures r.0 == db.(accounts := r.0.accounts, nextId := db.nextId + r.1.created)
    ensures |r.0.accounts| == |db.accounts| + r.1.created && r.0.accounts[..|db.accounts|] == db.accounts
    ensures forall k :: |db.accounts| <= k < |r.0.accounts| ==>
      r.0.accounts[k].userId == userId && r.0.accounts[k].id == db.nextId + (k - |db.accounts|)
  {
    if rows == [] then (db, Untouched)
    else
      var idx := |rows| - 1;
      var (s, res) := AccountImport(rows[..idx], db, userId, env);
      AccountStep(s, res, idx, AccountRow(idx, rows[idx], userId, s.nextId, env))
  }

  /** One turn of the loop: count the new account, or record the row's error. */
  function AccountStep(s: Store, res: SectionResult, idx: nat, row: Result<Account, Problem>): (Store, SectionResult) {
    match row
    case Ok(a) => (s.(accounts := s.accounts + [a], nextId := s.nextId + 1), res.(created := res.created + 1))
    case Err(p) => (s, res.(errors := res.errors + [RowMessage(idx, p)]))
  }

  /**
   * The loop over the transaction rows, given the ids of the user's accounts
   * read before it. Every new transaction has a positive amount and links
   * only to one of those accounts.
   */
  function TransactionImport(rows: seq<Json>, db: Store, userId: int, accountIds: set<int>, env: Env)
    : (r: (Store, SectionResult))
    ensures r.1.created + |r.1.errors| == |rows|
    ensures r.0 == db.(transactions := r.0.transactions, nextId := db.nextId + r.1.created)
    ensures |r.0.transactions| == |db.transactions| + r.1.created && r.0.transactions[..|db.transactions|] == db.transactions
    ensures forall k :: |db.transactions| <= k < |r.0.transactions| ==>
      var t := r.0.transactions[k];
      t.userId == userId && t.id == db.nextId + (k - |db.transactions|) && TransactionFloor(t)
      && (t.accountId.Some? ==> t.accountId.value in accountIds)
  {
    if rows == [] then (db, Untouched)
    else
      var idx := |rows| - 1;
      var (s, res) := TransactionImport(rows[..idx], db, userId, accountIds, env);
      TransactionStep(s, res, idx, TransactionRow(idx, rows[idx], userId, s.nextId, accountIds, env))
  }

  function TransactionStep(s: Store, res: SectionResult, idx: nat, row: Result<Transaction, Problem>): (Store, SectionResult) {
    match row
    case Ok(t) => (s.(transactions := s.transactions + [t], nextId := s.nextId + 1), res.(created := res.created + 1))
    case Err(p) => (s, res.(errors := res.errors + [RowMessage(idx, p)]))
  }

  /** The loop over the goal rows. Every new goal respects the value floors and links no account. */
  function GoalImport(rows: seq<Json>, db: Store, userId: int, env: Env): (r: (Store, SectionResult))
    ensures r.1.created + |r.1.errors| == |rows|
    ensures r.0 == db.(goals := r.0.goals, nextId := db.nextId + r.1.created)
    ensures |r.0.goals| == |db.goals| + r.1.created && r.0.goals[..|db.goals|] == db.goals
    ensures forall k :: |db.goals| <= k < |r.0.goals| ==>
      var g := r.0.goals[k];
      g.userId == userId && g.id == db.nextId + (k - |db.goals|) && GoalFloor(g) && g.linkedAccounts == []
  {
    if rows == [] then (db, Untouched)
    else
      var idx := |rows| - 1;
      var (s, res) := GoalImport(rows[..idx], db, userId, env);
      GoalStep(s, res, idx, GoalRow(idx, rows[idx], userId, s.nextId, env))
  }

  function GoalStep(s: Store, res: SectionResult, idx: nat, row: Result<Goal, Problem>): (Store, SectionResult) {
    match row
    case Ok(g) => (s.(goals := s.goals + [g], nextId := s.nextId + 1), res.(created := res.created + 1))
    case Err(p) => (s, res.(errors := res.errors + [RowMessage(idx, p)]))
  }

  /** The loop over the category rows. It never gives the user two categories of one name. */
  function CategoryImport(rows: seq<Json>, db: Store, userId: int, env: Env): (r: (Store, SectionResult))
    ensures r.1.created + |r.1.errors| == |rows|
    ensures r.0 == db.(categories := r.0.categories, nextId := db.nextId + r.1.created)
    ensures |r.0.categories| == |db.categories| + r.1.created && r.0.categories[..|db.categories|] == db.categories
    ensures forall k :: |db.categories| <= k < |r.0.categories| ==>
      r.0.categories[k].userId == userId && r.0.categories[k].id == db.nextId + (k - |db.categories|)
    ensures UniqueCategoryNames(db.categories) ==> UniqueCategoryNames(r.0.categories)
  {
    if rows == [] then (db, Untouched)
    else
      var idx := |rows| - 1;
      var (s, res) := CategoryImport(rows[..idx], db, userId, env);
      var row := CategoryRow(idx, rows[idx], userId, s.nextId, s.categories, env);
      if row.Ok? then AddFreshCategory(s.categories, row.value); CategoryStep(s, res, idx, row)
      else CategoryStep(s, res, idx, row)
  }

  function CategoryStep(s: Store, res: SectionResult, idx: nat, row: Result<BudgetCategory, Problem>): (Store, SectionResult) {
    match row
    case Ok(c) => (s.(categories := s.categories + [c], nextId := s.nextId + 1), res.(created := res.created + 1))
    case Err(p) => (s, res.(errors := res.errors + [RowMessage(idx, p)]))
  }

  /** Adding a category whose name its user does not have yet keeps the names unique. */
  lemma AddFreshCategory(categories: seq<BudgetCategory>, c: BudgetCategory)
    requires !NameTaken(categories, c.userId, c.name)
    ensures UniqueCategoryNames(categories) ==> UniqueCategoryNames(categories + [c])
  {
    var all := categories + [c];
    if UniqueCategoryNames(categories) {
      forall i, j | 0 <= i < j < |all| && all[i].userId == all[j].userId ensures all[i].name != all[j].name {
        if j == |categories| {
          assert all[j] == c && all[i] == categories[i];
        } else {
          assert all[i] == categories[i] && all[j] == categories[j];
        }
      }
    }
  }

  /** `for idx, account_data in enumerate(data['accounts'])`. */
  method ImportAccounts(rows: seq<Json>, db: Store, userId: int, env: Env) returns (out: Store, result: SectionResult)
    ensures (out, result) == AccountImport(rows, db, userId, env)
  {
    out, result := db, Untouched;
    for idx := 0 to |rows|
      invariant (out, result) == AccountImport(rows[..idx], db, userId, env)
    {
      assert rows[..idx + 1][..idx] == rows[..idx];
      var row := AccountRow(idx, rows[idx], userId, out.nextId, env);
      ghost var before := (out, result);
      if row.Ok? {
        out := out.(accounts := out.accounts + [row.value], nextId := out.nextId + 1);
        result := result.(created := result.created + 1);
      } else {
        result := result.(errors := result.errors + [RowMessage(idx, row.error)]);
      }
      assert (out, result) == AccountStep(before.0, before.1, idx, row);
    }
    assert rows[..|rows|] == rows;
  }

  /** `for idx, tx_data in enumerate(data['transactions'])`. */
  method ImportTransactions(rows: seq<Json>, db: Store, userId: int, accountIds: set<int>, env: Env)
    returns (out: Store, result: SectionResult)
    ensures (out, result) == TransactionImport(rows, db, userId, accountIds, env)
  {
    out, result := db, Untouched;
    for idx := 0 to |rows|
      invariant (out, result) == TransactionImport(rows[..idx], db, userId, accountIds, env)
    {
      assert rows[..idx + 1][..idx] == rows[..idx];
      var row := TransactionRow(idx, rows[idx], userId, out.nextId, accountIds, env);
      ghost var before := (out, result);
      if row.Ok? {
        out := out.(transactions := out.transactions + [row.value], nextId := out.nextId + 1);
        result := result.(created := result.created + 1);
      } else {
        result := result.(errors := result.errors + [RowMessage(idx, row.error)]);
      }
      assert (out, result) == TransactionStep(before.0, before.1, idx, row);
    }
    assert rows[..|rows|] == rows;
  }

  /** `for idx, goal_data in enumerate(data['goals'])`. */
  method ImportGoals(rows: seq<Json>, db: Store, userId: int, env: Env) returns (out: Store, result: SectionResult)
    ensures (out, result) == GoalImport(rows, db, userId, env)
  {
    out, result := db, Untouched;
    for idx := 0 to |rows|
      invariant (out, result) == GoalImport(rows[..idx], db, userId, env)
    {
      assert rows[..idx + 1][..idx] == rows[..idx];
      var row := GoalRow(idx, rows[idx], userId, out.nextId, env);
      ghost var before := (out, result);
      if row.Ok? {
        out := out.(goals := out.goals + [row.value], nextId := out.nextId + 1);
        result := result.(created := result.created + 1);
      } else {
        result := result.(errors := result.errors + [RowMessage(idx, row.error)]);
      }
      assert (out, result) == GoalStep(before.0, before.1, idx, row);
    }
    assert rows[..|rows|] == rows;
  }

  /** `for idx, bc_data in enumerate(data['budget_categories'])`. */
  method ImportCategories(rows: seq<Json>, db: Store, userId: int, env: Env) returns (out: Store, result: SectionResult)
    ensures (out, result) == CategoryImport(rows, db, userId, env)
  {
    out, result := db, Untouched;
    for idx := 0 to |rows|
      invariant (out, result) == CategoryImport(rows[..idx], db, userId, env)
    {
      assert rows[..idx + 1][..idx] == rows[..idx];
      var row := CategoryRow(idx, rows[idx], userId, out.nextId, out.categories, env);
      ghost var before := (out, result);
      if row.Ok? {
        out := out.(categories := out.categories + [row.value], nextId := out.nextId + 1);
        result := result.(created := result.created + 1);
      } else {
        result := result.(errors := result.errors + [RowMessage(idx, row.error)]);
      }
      assert (out, result) == CategoryStep(before.0, before.1, idx, row);
    }
    assert rows[..|rows|] == rows;
  }

  // ---------------------------------------------------------------------
  // import_user_data_from_json

  /** The `results` dictionary: one counter and error list per section. */
  datatype Results = Results(accounts: SectionResult, transactions: SectionResult, goals: SectionResult,
                             categories: SectionResult)

  const NoResults := Results(Untouched, Untouched, Untouched, Untouched)

  /**
   * What the call returns: `success` False with the parse error, `success`
   * True with the results, or an exception that escapes the function.
   */
  datatype ImportOutcome =
    | ParseFailed(error: string, results: Results)
    | Imported(results: Results)
    | Raised

  /** `key in data` for a loaded value; `None` where `in` raises `TypeError`. */
  function Membership(key: string, data: Json): Option<bool> {
    match data
    case JObject(fields) => Some(key in fields)
    case JArray(items) => Some(JString(key) in items)
    case JString(s) => Some(Contains(s, key))
    case _ => None
  }

  /**
   * A top-level value that is not an object gets through the four section
   * tests only when none of the keys is "in" it; `data[key]` on a list or a
   * text raises otherwise.
   */
  predicate PassesSectionTests(data: Json) {
    Membership("accounts", data) == Some(false) && Membership("transactions", data) == Some(false)
    && Membership("goals", data) == Some(false) && Membership("budget_categories", data) == Some(false)
  }

  /** The rows of a section that is present and a list. */
  function SectionRows(fields: map<string, Json>, key: string): Option<seq<Json>> {
    if key in fields && fields[key].JArray? then Some(fields[key].items) else None
  }

  /** The row count a section's counters add up to: 0 for a skipped section. */
  function RowCount(fields: map<string, Json>, key: string): nat {
    match SectionRows(fields, key)
    case Some(rows) => |rows|
    case None => 0
  }

  /** The keys of `accounts_map`. */
  function AccountIds(accounts: seq<Account>): set<int> {
    set k | 0 <= k < |accounts| :: accounts[k].id
  }

  function ImportAccountSection(fields: map<string, Json>, db: Store, userId: int, env: Env): (r: (Store, SectionResult))
    ensures r.1.created + |r.1.errors| == RowCount(fields, "accounts")
    ensures r.0 == db.(accounts := r.0.accounts, nextId := db.nextId + r.1.created)
    ensures |r.0.accounts| == |db.accounts| + r.1.created && r.0.accounts[..|db.accounts|] == db.accounts
  {
    match SectionRows(fields, "accounts")
    case Some(rows) => AccountImport(rows, db, userId, env)
    case None => (db, Untouched)
  }

  function ImportTransactionSection(fields: map<string, Json>, db: Store, userId: int, env: Env): (r: (Store, SectionResult))
    ensures r.1.created + |r.1.errors| == RowCount(fields, "transactions")
    ensures r.0 == db.(transactions := r.0.transactions, nextId := db.nextId + r.1.created)
    ensures |r.0.transactions| == |db.transactions| + r.1.created && r.0.transactions[..|db.transactions|] == db.transactions
  {
    match SectionRows(fields, "transactions")
    case Some(rows) => TransactionImport(rows, db, userId, AccountIds(AccountsOf(db.accounts, userId)), env)
    case None => (db, Untouched)
  }

  function ImportGoalSection(fields: map<string, Json>, db: Store, userId: int, env: Env): (r: (Store, SectionResult))
    ensures r.1.created + |r.1.errors| == RowCount(fields, "goals")
    ensures r.0 == db.(goals := r.0.goals, nextId := db.nextId + r.1.created)
    ensures |r.0.goals| == |db.goals| + r.1.created && r.0.goals[..|db.goals|] == db.goals
  {
    match SectionRows(fields, "goals")
    case Some(rows) => GoalImport(rows, db, userId, env)
    case None => (db, Untouched)
  }

  function ImportCategorySection(fields: map<string, Json>, db: Store, userId: int, env: Env): (r: (Store, SectionResult))
    ensures r.1.created + |r.1.errors| == RowCount(fields, "budget_categories")
    ensures r.0 == db.(categories := r.0.categories, nextId := db.nextId + r.1.created)
    ensures |r.0.categories| == |db.categories| + r.1.created && r.0.categories[..|db.categories|] == db.categories
  {
    match SectionRows(fields, "budget_categories")
    case Some(rows) => CategoryImport(rows, db, userId, env)
    case None => (db, Untouched)
  }

  /** The whole import: the store afterwards and what the call returns. */
  function ImportSpec(input: Parsed, db: Store, userId: int, env: Env): (r: (Store, ImportOutcome))
    ensures r.1.ParseFailed? <==> input.Malformed?
    ensures r.1.ParseFailed? ==> r.1 == ParseFailed(ParseErrorPrefix + input.detail, NoResults)
    ensures r.1.Raised? <==> input.Parsed? && !input.value.JObject? && !PassesSectionTests(input.value)
    ensures !r.1.Imported? || !input.value.JObject? ==> r.0 == db
  {
    match input
    case Malformed(detail) => (db, ParseFailed(ParseErrorPrefix + detail, NoResults))
    case Parsed(data) =>
      if !data.JObject? then (db, if PassesSectionTests(data) then Imported(NoResults) else Raised)
      else
        var (s1, r1) := ImportAccountSection(data.fields, db, userId, env);
        var (s2, r2) := ImportTransactionSection(data.fields, s1, userId, env);
        var (s3, r3) := ImportGoalSection(data.fields, s2, userId, env);
        var (s4, r4) := ImportCategorySection(data.fields, s3, userId, env);
        (s4, Imported(Results(r1, r2, r3, r4)))
  }

  /** `import_user_data_from_json(json_content, user)` acting on the store. */
  method ImportUserData(input: Parsed, db: Store, userId: int, env: Env) returns (out: Store, outcome: ImportOutcome)
    ensures (out, outcome) == ImportSpec(input, db, userId, env)
  {
    out := db;
    if input.Malformed? {
      return out, ParseFailed(ParseErrorPrefix + input.detail, NoResults);
    }
    var data := input.value;
    if !data.JObject? {
      return out, if PassesSectionTests(data) then Imported(NoResults) else Raised;
    }
    var fields := data.fields;
    var accounts, transactions, goals, categories := Untouched, Untouched, Untouched, Untouched;
    if "accounts" in fields && fields["accounts"].JArray? {
      out, accounts := ImportAccounts(fields["accounts"].items, out, userId, env);
    }
    assert (out, accounts) == ImportAccountSection(fields, db, userId, env);
    ghost var s1 := out;
    if "transactions" in fields && fields["transactions"].JArray? {
      var accountIds := AccountIds(AccountsOf(out.accounts, userId));
      out, transactions := ImportTransactions(fields["transactions"].items, out, userId, accountIds, env);
    }
    assert (out, transactions) == ImportTransactionSection(fields, s1, userId, env);
    ghost var s2 := out;
    if "goals" in fields && fields["goals"].JArray? {
      out, goals := ImportGoals(fields["goals"].items, out, userId, env);
    }
    assert (out, goals) == ImportGoalSection(fields, s2, userId, env);
    ghost var s3 := out;
    if "budget_categories" in fields && fields["budget_categories"].JArray? {
      out, categories := ImportCategories(fields["budget_categories"].items, out, userId, env);
    }
    assert (out, categories) == ImportCategorySection(fields, s3, userId, env);
    outcome := Imported(Results(accounts, transactions, goals, categories));
  }

  /**
   * The counters of an imported object: each section's `created` and error
   * count add up to its rows (0 for a skipped section), ids advance by the
   * rows created, and the rows already in the store stay in place.
   */
  lemma ImportAccounting(fields: map<string, Json>, db: Store, userId: int, env: Env)
    ensures var (out, outcome) := ImportSpec(Parsed(JObject(fields)), db, userId, env);
      var r := outcome.results;
      outcome.Imported?
      && r.accounts.created + |r.accounts.errors| == RowCount(fields, "accounts")
      && r.transactions.created + |r.transactions.errors| == RowCount(fields, "transactions")
      && r.goals.created + |r.goals.errors| == RowCount(fields, "goals")
      && r.categories.created + |r.categories.errors| == RowCount(fields, "budget_categories")
      && out.nextId == db.nextId + r.accounts.created + r.transactions.created + r.goals.created + r.categories.created
      && |out.accounts| == |db.accounts| + r.accounts.created && out.accounts[..|db.accounts|] == db.accounts
      && |out.transactions| == |db.transactions| + r.transactions.created
      && out.transactions[..|db.transactions|] == db.transactions
      && |out.goals| == |db.goals| + r.goals.created && out.goals[..|db.goals|] == db.goals
      && |out.categories| == |db.categories| + r.categories.created && out.categories[..|db.categories|] == db.categories
  {
    var (s1, r1) := ImportAccountSection(fields, db, userId, env);
    var (s2, r2) := ImportTransactionSection(fields, s1, userId, env);
    var (s3, r3) := ImportGoalSection(fields, s2, userId, env);
    var (s4, r4) := ImportCategorySection(fields, s3, userId, env);
    assert s2.accounts == s1.accounts && s3.accounts == s1.accounts && s4.accounts == s1.accounts;
    assert s3.transactions == s2.transactions && s4.transactions == s2.transactions && s4.goals == s3.goals;
  }

  /**
   * What the import leaves true of the rows it adds: each new transaction
   * has a positive amount and links only to one of the user's accounts,
   * each new goal respects its floors and links nothing, and category names
   * stay unique per user.
   */
  lemma ImportKeepsRules(fields: map<string, Json>, db: Store, userId: int, env: Env)
    ensures var out := ImportSpec(Parsed(JObject(fields)), db, userId, env).0;
      (UniqueCategoryNames(db.categories) ==> UniqueCategoryNames(out.categories))
      && (forall k :: |db.transactions| <= k < |out.transactions| ==>
            var t := out.transactions[k];
            TransactionFloor(t) && t.userId == userId
            && (t.accountId.Some? ==> t.accountId.value in AccountIds(AccountsOf(out.accounts, userId))))
      && (forall k :: |db.goals| <= k < |out.goals| ==>
            GoalFloor(out.goals[k]) && out.goals[k].userId == userId && out.goals[k].linkedAccounts == [])
  {
    var (s1, r1) := ImportAccountSection(fields, db, userId, env);
    var (s2, r2) := ImportTransactionSection(fields, s1, userId, env);
    var (s3, r3) := ImportGoalSection(fields, s2, userId, env);
    var (s4, r4) := ImportCategorySection(fields, s3, userId, env);
    assert s4.accounts == s1.accounts;
    assert s4.transactions == s2.transactions && s2.transactions[..|db.transactions|] == db.transactions;
    assert s4.goals == s3.goals && s3.goals[..|db.goals|] == s2.goals == db.goals;
    assert s3.categories == db.categories;
  }

  /**
   * A file that passes `validate_json_structure` is imported section by
   * section: no section it holds is skipped.
   */
  lemma ValidatedSectionsImported(fields: map<string, Json>)
    requires fields.Keys <= AllowedKeys && StructureErrors(fields) == []
    ensures forall key :: key in fields ==> SectionRows(fields, key) == Some(fields[key].items)
  {
    NoStructureErrors(fields);
    forall key | key in fields ensures SectionRows(fields, key) == Some(fields[key].items) {
      assert key in AllowedKeys && !NotArray(fields, key);
    }
  }

  /** The error line of one of the first `rowCount` rows. */
  ghost predicate NamesRow(line: string, rowCount: nat) {
    exists i: nat, p: Problem :: i < rowCount && line == RowMessage(i, p)
  }

  /** Every error line of a section names one of its rows by number. */
  ghost predicate NamesRows(res: SectionResult, rowCount: nat) {
    forall k :: 0 <= k < |res.errors| ==> NamesRow(res.errors[k], rowCount)
  }

  lemma NamesRowsStep(res: SectionResult, idx: nat, p: Problem)
    requires NamesRows(res, idx)
    ensures NamesRows(res.(created := res.created + 1), idx + 1)
    ensures NamesRows(res.(errors := res.errors + [RowMessage(idx, p)]), idx + 1)
  {
    var errors := res.errors + [RowMessage(idx, p)];
    forall k | 0 <= k < |errors| ensures NamesRow(errors[k], idx + 1) {
      if k < |res.errors| {
        assert errors[k] == res.errors[k];
        NamesRowWider(res.errors[k], idx, idx + 1);
      } else {
        assert errors[k] == RowMessage(idx, p);
        NamesRowOf(idx, p);
      }
    }
    forall k | 0 <= k < |res.errors| ensures NamesRow(res.errors[k], idx + 1) {
      NamesRowWider(res.errors[k], idx, idx + 1);
    }
  }

  lemma NamesRowWider(line: string, n: nat, m: nat)
    requires NamesRow(line, n) && n <= m
    ensures NamesRow(line, m)
  {
    var i: nat, p: Problem :| i < n && line == RowMessage(i, p);
  }

  lemma NamesRowOf(idx: nat, p: Problem)
    ensures NamesRow(RowMessage(idx, p), idx + 1)
  {
  }

  lemma AccountStepNamesRows(s: Store, res: SectionResult, idx: nat, row: Result<Account, Problem>)
    requires NamesRows(res, idx)
    ensures NamesRows(AccountStep(s, res, idx, row).1, idx + 1)
  {
    NamesRowsStep(res, idx, if row.Err? then row.error else InvalidDecimal);
  }

  lemma TransactionStepNamesRows(s: Store, res: SectionResult, idx: nat, row: Result<Transaction, Problem>)
    requires NamesRows(res, idx)
    ensures NamesRows(TransactionStep(s, res, idx, row).1, idx + 1)
  {
    NamesRowsStep(res, idx, if row.Err? then row.error else InvalidDecimal);
  }

  lemma GoalStepNamesRows(s: Store, res: SectionResult, idx: nat, row: Result<Goal, Problem>)
    requires NamesRows(res, idx)
    ensures NamesRows(GoalStep(s, res, idx, row).1, idx + 1)
  {
    NamesRowsStep(res, idx, if row.Err? then row.error else InvalidDecimal);
  }

  lemma CategoryStepNamesRows(s: Store, res: SectionResult, idx: nat, row: Result<BudgetCategory, Problem>)
    requires NamesRows(res, idx)
    ensures NamesRows(CategoryStep(s, res, idx, row).1, idx + 1)
  {
    NamesRowsStep(res, idx, if row.Err? then row.error else InvalidDecimal);
  }

  lemma {:induction false} AccountErrorsNameRows(rows: seq<Json>, db: Store, userId: int, env: Env)
    ensures NamesRows(AccountImport(rows, db, userId, env).1, |rows|)
  {
    if rows != [] {
      var idx := |rows| - 1;
      AccountErrorsNameRows(rows[..idx], db, userId, env);
      var (s, res) := AccountImport(rows[..idx], db, userId, env);
      AccountStepNamesRows(s, res, idx, AccountRow(idx, rows[idx], userId, s.nextId, env));
    }
  }

  lemma {:induction false} TransactionErrorsNameRows(rows: seq<Json>, db: Store, userId: int, accountIds: set<int>, env: Env)
    ensures NamesRows(TransactionImport(rows, db, userId, accountIds, env).1, |rows|)
  {
    if rows != [] {
      var idx := |rows| - 1;
      TransactionErrorsNameRows(rows[..idx], db, userId, accountIds, env);
      var (s, res) := TransactionImport(rows[..idx], db, userId, accountIds, env);
      TransactionStepNamesRows(s, res, idx, TransactionRow(idx, rows[idx], userId, s.nextId, accountIds, env));
    }
  }

  lemma {:induction false} GoalErrorsNameRows(rows: seq<Json>, db: Store, userId: int, env: Env)
    ensures NamesRows(GoalImport(rows, db, userId, env).1, |rows|)
  {
    if rows != [] {
      var idx := |rows| - 1;
      GoalErrorsNameRows(rows[..idx], db, userId, env);
      var (s, res) := GoalImport(rows[..idx], db, userId, env);
      GoalStepNamesRows(s, res, idx, GoalRow(idx, rows[idx], userId, s.nextId, env));
    }
  }

  lemma {:induction false} CategoryErrorsNameRows(rows: seq<Json>, db: Store, userId: int, env: Env)
    ensures NamesRows(CategoryImport(rows, db, userId, env).1, |rows|)
  {
    if rows != [] {
      var idx := |rows| - 1;
      CategoryErrorsNameRows(rows[..idx], db, userId, env);
      var (s, res) := CategoryImport(rows[..idx], db, userId, env);
      CategoryStepNamesRows(s, res, idx, CategoryRow(idx, rows[idx], userId, s.nextId, s.categories, env));
    }
  }

  /** Two error lines with the same text are about the same row: the row number can be read back. */
  lemma RowMessageNumber(i: nat, p: Problem, j: nat, q: Problem)
    requires RowMessage(i, p) == RowMessage(j, q)
    ensures i == j
  {
    NumberedLine(i, ProblemText(p), j, ProblemText(q));
  }

  lemma NumberedLine(i: nat, a: string, j: nat, b: string)
    requires "Строка " + NatToString(i + 1) + ": " + a == "Строка " + NatToString(j + 1) + ": " + b
    ensures i == j
  {
    var d1, d2 := NatToString(i + 1), NatToString(j + 1);
    var t1, t2 := ": " + a, ": " + b;
    RegroupLine(d1, a);
    RegroupLine(d2, b);
    DropCommonPrefix("Строка ", d1 + t1, d2 + t2);
    DigitsBeforeColon(d1, t1, d2, t2);
    NatToStringValue(i + 1);
    NatToStringValue(j + 1);
  }

  lemma RegroupLine(d: string, a: string)
    ensures "Строка " + d + ": " + a == "Строка " + (d + (": " + a))
  {
  }

  lemma DropCommonPrefix(head: string, x: string, y: string)
    requires head + x == head + y
    ensures x == y
  {
    assert x == (head + x)[|head|..];
    assert y == (head + y)[|head|..];
  }

  /** The length of the run of digits a text starts with. */
  function LeadingDigits(s: string): nat {
    if s == [] || !IsDigit(s[0]) then 0 else 1 + LeadingDigits(s[1..])
  }

  lemma {:induction false} LeadingDigitsRun(d: string, t: string)
    requires AllDigits(d) && t != [] && !IsDigit(t[0])
    ensures LeadingDigits(d + t) == |d|
    decreases |d|
  {
    if d == [] {
      assert d + t == t;
    } else {
      assert (d + t)[1..] == d[1..] + t;
      LeadingDigitsRun(d[1..], t);
    }
  }

  /** A run of digits followed by a colon is determined by the text it starts. */
  lemma DigitsBeforeColon(d1: string, t1: string, d2: string, t2: string)
    requires AllDigits(d1) && AllDigits(d2) && t1 != [] && t1[0] == ':' && t2 != [] && t2[0] == ':'
    requires d1 + t1 == d2 + t2
    ensures d1 == d2
  {
    LeadingDigitsRun(d1, t1);
    LeadingDigitsRun(d2, t2);
    assert d1 == (d1 + t1)[..|d1|] && d2 == (d2 + t2)[..|d2|];
  }

  // ---------------------------------------------------------------------
  // export_user_data_to_json, before `json.dumps`

  function ExportAccount(a: Account): Json {
    JObject(map["id" := JInt(a.id), "name" := JString(a.name), "amount" := JString(Backup.CentsText(a.amount)),
                "account_type" := JString(a.accountType), "description" := JString(a.description),
                "created_at" := JString(a.createdAt)])
  }

  function ExportTransaction(t: Transaction): Json {
    JObject(map["id" := JInt(t.id), "name" := JString(t.name), "amount" := JString(Backup.CentsText(t.amount)),
                "transaction_type" := JString(t.transactionType), "category" := JString(t.category),
                "date" := JString(t.date), "account_id" := if t.accountId.Some? then JInt(t.accountId.value) else JNull,
                "created_at" := JString(t.createdAt)])
  }

  function ExportGoal(g: Goal): Json {
    JObject(map["id" := JInt(g.id), "name" := JString(g.name), "target_amount" := JString(Backup.CentsText(g.targetAmount)),
                "current_amount" := JString(Backup.CentsText(g.currentAmount)), "created_at" := JString(g.createdAt)])
  }

  function ExportCategory(c: BudgetCategory): Json {
    JObject(map["id" := JInt(c.id), "name" := JString(c.name), "budget" := JString(Backup.CentsText(c.budget)),
                "emoji" := JString(c.emoji), "created_at" := JString(c.createdAt)])
  }

  function ExportAccounts(accounts: seq<Account>): (r: seq<Json>)
    ensures |r| == |accounts| && forall k :: 0 <= k < |r| ==> r[k] == ExportAccount(accounts[k])
  {
    seq(|accounts|, k requires 0 <= k < |accounts| => ExportAccount(accounts[k]))
  }

  function ExportTransactions(transactions: seq<Transaction>): (r: seq<Json>)
    ensures |r| == |transactions| && forall k :: 0 <= k < |r| ==> r[k] == ExportTransaction(transactions[k])
  {
    seq(|transactions|, k requires 0 <= k < |transactions| => ExportTransaction(transactions[k]))
  }

  function ExportGoals(goals: seq<Goal>): (r: seq<Json>)
    ensures |r| == |goals| && forall k :: 0 <= k < |r| ==> r[k] == ExportGoal(goals[k])
  {
    seq(|goals|, k requires 0 <= k < |goals| => ExportGoal(goals[k]))
  }

  function ExportCategories(categories: seq<BudgetCategory>): (r: seq<Json>)
    ensures |r| == |categories| && forall k :: 0 <= k < |r| ==> r[k] == ExportCategory(categories[k])
  {
    seq(|categories|, k requires 0 <= k < |categories| => ExportCategory(categories[k]))
  }

  /** The `data` dictionary the export dumps: the user's own rows of each table. */
  function ExportUserData(username: string, userId: int, db: Store, exportedAt: Timestamp): Json {
    JObject(map["user" := JString(username), "exported_at" := JString(exportedAt),
                "accounts" := JArray(ExportAccounts(AccountsOf(db.accounts, userId))),
                "transactions" := JArray(ExportTransactions(TransactionsOf(db.transactions, userId))),
                "goals" := JArray(ExportGoals(GoalsOf(db.goals, userId))),
                "budget_categories" := JArray(ExportCategories(CategoriesOf(db.categories, userId)))])
  }

  /**
   * The export carries two keys besides the four sections, so
   * `validate_json_structure` turns an exported file away as it stands.
   */
  lemma ExportHasUnknownKeys(username: string, userId: int, db: Store, exportedAt: Timestamp)
    ensures var e := ExportUserData(username, userId, db, exportedAt);
      e.JObject? && e.fields.Keys - AllowedKeys == {"user", "exported_at"}
      && StructureErrors(e.fields) == []
  {
    var e := ExportUserData(username, userId, db, exportedAt);
    assert "user" in e.fields.Keys - AllowedKeys;
    assert "exported_at" in e.fields.Keys - AllowedKeys;
  }

  /** An exported goal holds no field for its linked accounts or the linked-only flag. */
  lemma ExportGoalFields(g: Goal)
    ensures ExportGoal(g).fields.Keys == {"id", "name", "target_amount", "current_amount", "created_at"}
  {
  }

  /** An account row whose fields are all texts, with a readable amount. */
  lemma AccountRowOfTexts(idx: nat, row: Json, userId: int, id: int, env: Env,
                          name: string, amount: Cents, accountType: string, description: string)
    requires row.JObject?
    requires "amount" in row.fields && DecimalOf(row.fields["amount"]) == Some(amount)
    requires "name" in row.fields && row.fields["name"] == JString(name)
    requires "account_type" in row.fields && row.fields["account_type"] == JString(accountType)
    requires "description" in row.fields && row.fields["description"] == JString(description)
    ensures AccountRow(idx, row, userId, id, env)
      == Ok(Account(id, userId, name, amount, accountType, description, env.now, env.now))
  {
  }

  lemma ExportAccountLookups(a: Account)
    ensures var f := ExportAccount(a).fields;
      "amount" in f && f["amount"] == JString(Backup.CentsText(a.amount))
      && "name" in f && f["name"] == JString(a.name)
      && "account_type" in f && f["account_type"] == JString(a.accountType)
      && "description" in f && f["description"] == JString(a.description)
  {
  }

  /** The exported account row holds its texts and an amount that reads back. */
  lemma ExportAccountReads(a: Account)
    ensures var row := ExportAccount(a);
      row.JObject?
      && "amount" in row.fields && DecimalOf(row.fields["amount"]) == Some(a.amount)
      && "name" in row.fields && row.fields["name"] == JString(a.name)
      && "account_type" in row.fields && row.fields["account_type"] == JString(a.accountType)
      && "description" in row.fields && row.fields["description"] == JString(a.description)
  {
    ExportAccountLookups(a);
    DecimalOfCentsText(a.amount);
  }

  /** Importing an exported account row gives back the account, under new ids and times. */
  lemma ReimportAccount(idx: nat, a: Account, userId: int, id: int, env: Env)
    ensures AccountRow(idx, ExportAccount(a), userId, id, env)
      == Ok(a.(id := id, userId := userId, createdAt := env.now, updatedAt := env.now))
  {
    ExportAccountReads(a);
    AccountRowOfTexts(idx, ExportAccount(a), userId, id, env, a.name, a.amount, a.accountType, a.description);
  }

  /** A goal row whose name is a text and whose amounts are readable. */
  lemma GoalRowOfTexts(idx: nat, row: Json, userId: int, id: int, env: Env,
                       name: string, target: Cents, current: Cents)
    requires row.JObject?
    requires "target_amount" in row.fields && DecimalOf(row.fields["target_amount"]) == Some(target)
    requires "current_amount" in row.fields && DecimalOf(row.fields["current_amount"]) == Some(current)
    requires "name" in row.fields && row.fields["name"] == JString(name)
    ensures GoalRow(idx, row, userId, id, env).Ok? <==> target >= 1 && current >= 0
    ensures target >= 1 && current >= 0 ==>
      GoalRow(idx, row, userId, id, env) == Ok(Goal(id, userId, name, target, current, false, [], env.now, env.now))
  {
  }

  lemma ExportGoalLookups(g: Goal)
    ensures var f := ExportGoal(g).fields;
      "target_amount" in f && f["target_amount"] == JString(Backup.CentsText(g.targetAmount))
      && "current_amount" in f && f["current_amount"] == JString(Backup.CentsText(g.currentAmount))
      && "name" in f && f["name"] == JString(g.name)
  {
  }

  /** The exported goal row holds its name and amounts that read back. */
  lemma ExportGoalReads(g: Goal)
    ensures var row := ExportGoal(g);
      row.JObject?
      && "target_amount" in row.fields && DecimalOf(row.fields["target_amount"]) == Some(g.targetAmount)
      && "current_amount" in row.fields && DecimalOf(row.fields["current_amount"]) == Some(g.currentAmount)
      && "name" in row.fields && row.fields["name"] == JString(g.name)
  {
    ExportGoalLookups(g);
    DecimalOfCentsText(g.targetAmount);
    DecimalOfCentsText(g.currentAmount);
  }

  /**
   * Importing an exported goal row succeeds exactly when the goal respects
   * the floors, and then gives back its name and amounts; the links are lost.
   */
  lemma ReimportGoal(idx: nat, g: Goal, userId: int, id: int, env: Env)
    ensures GoalRow(idx, ExportGoal(g), userId, id, env).Ok? <==> GoalFloor(g)
    ensures GoalFloor(g) ==> (GoalRow(idx, ExportGoal(g), userId, id, env)
      == Ok(g.(id := id, userId := userId, useOnlyLinkedAccounts := false, linkedAccounts := [],
               createdAt := env.now, updatedAt := env.now)))
  {
    ExportGoalReads(g);
    GoalRowOfTexts(idx, ExportGoal(g), userId, id, env, g.name, g.targetAmount, g.currentAmount);
  }

  /** Importing an exported account section creates every account and reports no error. */
  lemma ReimportAccounts(accounts: seq<Account>, db: Store, userId: int, env: Env)
    ensures AccountImport(ExportAccounts(accounts), db, userId, env).1 == SectionResult(|accounts|, [])
  {
    var rows := ExportAccounts(accounts);
    forall k: nat, id: int | k < |rows| ensures AccountRow(k, rows[k], userId, id, env).Ok? {
      ReimportAccount(k, accounts[k], userId, id, env);
    }
    AcceptedRowsImport(rows, db, userId, env);
  }

  /** A section whose every row is accepted, whatever id it gets, creates them all and reports no error. */
  lemma {:induction false} AcceptedRowsImport(rows: seq<Json>, db: Store, userId: int, env: Env)
    requires forall k: nat, id: int :: k < |rows| ==> AccountRow(k, rows[k], userId, id, env).Ok?
    ensures AccountImport(rows, db, userId, env).1 == SectionResult(|rows|, [])
    decreases |rows|
  {
    if rows != [] {
      var n := |rows| - 1;
      assert forall k: nat :: k < n ==> rows[..n][k] == rows[k];
      AcceptedRowsImport(rows[..n], db, userId, env);
    }
  }

  lemma TransactionRowOfTexts(idx: nat, row: Json, userId: int, id: int, accountIds: set<int>, env: Env,
                              name: string, amount: Cents, transactionType: string, category: string, account: Json)
    requires row.JObject?
    requires "amount" in row.fields && DecimalOf(row.fields["amount"]) == Some(amount)
    requires "name" in row.fields && row.fields["name"] == JString(name)
    requires "transaction_type" in row.fields && row.fields["transaction_type"] == JString(transactionType)
    requires "category" in row.fields && row.fields["category"] == JString(category)
    requires "account_id" in row.fields && row.fields["account_id"] == account && (account.JInt? || account.JNull?)
    ensures var r := TransactionRow(idx, row, userId, id, accountIds, env);
      (r.Ok? <==> amount >= 1)
      && (r.Ok? ==> (r.value.name == name && r.value.amount == amount && r.value.transactionType == transactionType
            && r.value.category == category && r.value.accountId == AccountLink(account, accountIds).value))
  {
  }

  lemma ExportTransactionLookups(t: Transaction)
    ensures var f := ExportTransaction(t).fields;
      "amount" in f && f["amount"] == JString(Backup.CentsText(t.amount))
      && "name" in f && f["name"] == JString(t.name)
      && "transaction_type" in f && f["transaction_type"] == JString(t.transactionType)
      && "category" in f && f["category"] == JString(t.category)
      && "account_id" in f && f["account_id"] == if t.accountId.Some? then JInt(t.accountId.value) else JNull
  {
  }

  /** The exported transaction row holds its texts, its link and an amount that reads back. */
  lemma ExportTransactionReads(t: Transaction)
    ensures var row := ExportTransaction(t);
      row.JObject?
      && "amount" in row.fields && DecimalOf(row.fields["amount"]) == Some(t.amount)
      && "name" in row.fields && row.fields["name"] == JString(t.name)
      && "transaction_type" in row.fields && row.fields["transaction_type"] == JString(t.transactionType)
      && "category" in row.fields && row.fields["category"] == JString(t.category)
      && "account_id" in row.fields && row.fields["account_id"] == if t.accountId.Some? then JInt(t.accountId.value) else JNull
  {
    ExportTransactionLookups(t);
    DecimalOfCentsText(t.amount);
  }

  /**
   * Importing an exported transaction row succeeds exactly when its amount
   * is positive, and keeps its texts and amount; the link survives when it
   * names one of the importing user's accounts (and is not 0, which is falsy).
   */
  lemma ReimportTransaction(idx: nat, t: Transaction, userId: int, id: int, accountIds: set<int>, env: Env)
    ensures var r := TransactionRow(idx, ExportTransaction(t), userId, id, accountIds, env);
      (r.Ok? <==> TransactionFloor(t))
      && (r.Ok? ==> (r.value.name == t.name && r.value.amount == t.amount
            && r.value.transactionType == t.transactionType && r.value.category == t.category
            && r.value.accountId == if t.accountId.Some? && t.accountId.value != 0 && t.accountId.value in accountIds
                                    then t.accountId else None))
  {
    ExportTransactionReads(t);
    var account := if t.accountId.Some? then JInt(t.accountId.value) else JNull;
    TransactionRowOfTexts(idx, ExportTransaction(t), userId, id, accountIds, env,
                          t.name, t.amount, t.transactionType, t.category, account);
  }

  lemma CategoryRowOfTexts(idx: nat, row: Json, userId: int, id: int, categories: seq<BudgetCategory>,
                           env: Env, name: string, budget: Cents, emoji: string)
    requires row.JObject?
    requires "budget" in row.fields && DecimalOf(row.fields["budget"]) == Some(budget)
    requires "name" in row.fields && row.fields["name"] == JString(name)
    requires "emoji" in row.fields && row.fields["emoji"] == JString(emoji)
    ensures CategoryRow(idx, row, userId, id, categories, env)
      == if NameTaken(categories, userId, name) then Err(CategoryExists)
         else Ok(BudgetCategory(id, userId, name, budget, emoji, env.now, env.now))
  {
  }

  lemma ExportCategoryLookups(c: BudgetCategory)
    ensures var f := ExportCategory(c).fields;
      "budget" in f && f["budget"] == JString(Backup.CentsText(c.budget))
      && "name" in f && f["name"] == JString(c.name)
      && "emoji" in f && f["emoji"] == JString(c.emoji)
  {
  }

  /** The exported category row holds its texts and a budget that reads back. */
  lemma ExportCategoryReads(c: BudgetCategory)
    ensures var row := ExportCategory(c);
      row.JObject?
      && "budget" in row.fields && DecimalOf(row.fields["budget"]) == Some(c.budget)
      && "name" in row.fields && row.fields["name"] == JString(c.name)
      && "emoji" in row.fields && row.fields["emoji"] == JString(c.emoji)
  {
    ExportCategoryLookups(c);
    DecimalOfCentsText(c.budget);
  }

  /**
   * Importing an exported category row is refused exactly when the user
   * already has a category of that name, as after exporting from and
   * importing into the same account.
   */
  lemma ReimportCategory(idx: nat, c: BudgetCategory, userId: int, id: int, categories: seq<BudgetCategory>, env: Env)
    ensures CategoryRow(idx, ExportCategory(c), userId, id, categories, env)
      == if NameTaken(categories, userId, c.name) then Err(CategoryExists)
         else Ok(c.(id := id, userId := userId, createdAt := env.now, updatedAt := env.now))
  {
    ExportCategoryReads(c);
    CategoryRowOfTexts(idx, ExportCategory(c), userId, id, categories, env, c.name, c.budget, c.emoji);
  }
}
