/**
 * `forecast/views.py`: the guard of the SQL panel, the category upsert and
 * delete, the goal save with its linked accounts, and the records `api_goals`
 * and the forecast page hand to the browser.
 *
 * The request body arrives already parsed (`JsonIO.Parsed`). Django's
 * conversions of posted values (an id to an integer key, `float()` of a
 * budget, a decimal or boolean column) are parameters in `ViewEnv`: each
 * gives the converted value or the text of the exception it raises.
 */
module ForecastViews {
  import opened Wrappers
  import opened Text
  import opened Models
  import JsonIO

  type Json = JsonIO.Json

  /** What the views read from outside the request body. */
  datatype ViewEnv = ViewEnv(
    json: JsonIO.Env,                            // the clock and `str(value)`
    keyOf: Json -> Result<Option<int>, string>,  // a lookup value as a primary key; `None` for `None`
    budgetOf: Json -> Result<Cents, string>,     // `float(value)`, stored with two places
    decimalOf: Json -> Result<Cents, string>,    // a `DecimalField` reading an assigned value
    flagOf: Json -> Result<bool, string>,        // a `BooleanField` reading an assigned value
    keysOf: map<string, Json> -> seq<string>)    // a parsed object's keys, in the document's order

  datatype Request = Request(verb: string, body: JsonIO.Parsed)

  /** An exception a view catches with `except Exception as e`. */
  datatype Fault =
    | JsonDecode(detail: string)              // `json.loads` failed
    | NoAttribute(typeName: string, attr: string)
    | Conversion(text: string)                // a conversion in `ViewEnv` raised
    | DoesNotExist(model: string)             // `objects.get` found nothing
    | KeyMissing(key: string)                 // `data[key]` on a missing key
    | NotNullFailed(column: string)           // the INSERT or UPDATE wrote a null

  /** `str(e)`. */
  function FaultText(f: Fault): string {
    match f
    case JsonDecode(detail) => detail
    case NoAttribute(t, a) => "'" + t + "' object has no attribute '" + a + "'"
    case Conversion(text) => text
    case DoesNotExist(model) => model + " matching query does not exist."
    case KeyMissing(key) => "'" + key + "'"
    case NotNullFailed(column) => "NOT NULL constraint failed: " + column
  }

  /** The `error` of a `{'success': False, ...}` reply. */
  datatype ViewError = WrongMethod(text: string) | NameRequired | CategoryNotFound | Caught(fault: Fault)

  function ErrorText(e: ViewError): string {
    match e
    case WrongMethod(text) => text
    case NameRequired => "Название категории обязательно"
    case CategoryNotFound => "Категория не найдена"
    case Caught(f) => FaultText(f)
  }

  const InvalidMethod := "Invalid request method"
  const PostOnly := "POST only"

  /** `json.loads(request.body)` followed by the first `data.get`: the fields of an object body. */
  function BodyFields(body: JsonIO.Parsed): Result<map<string, Json>, Fault> {
    match body
    case Malformed(detail) => Err(JsonDecode(detail))
    case Parsed(v) => if v.JObject? then Ok(v.fields) else Err(NoAttribute(JsonIO.TypeName(v), "get"))
  }

  // ---------------------------------------------------------------------
  // sql_panel_view: the guard in front of `cursor.execute`

  const DangerWords: seq<string> :=
    ["delete", "update", "insert", "drop", "alter", "create", "truncate", "grant", "exec", "xp_", "--", "/*"]

  /** `any(danger in text for danger in words)`. */
  function AnyIn(text: string, words: seq<string>): bool {
    words != [] && (Contains(text, words[0]) || AnyIn(text, words[1..]))
  }

  lemma {:induction false} AnyInExists(text: string, words: seq<string>)
    ensures AnyIn(text, words) <==> exists k :: 0 <= k < |words| && Contains(text, words[k])
    decreases |words|
  {
    if words != [] {
      AnyInExists(text, words[1..]);
      assert forall k :: 1 <= k < |words| ==> words[k] == words[1..][k - 1];
      if exists k :: 0 <= k < |words| && Contains(text, words[k]) {
        var k :| 0 <= k < |words| && Contains(text, words[k]);
        if k > 0 {
          assert Contains(text, words[1..][k - 1]);
        }
      }
    }
  }

  datatype SqlVerdict = OnlySelect | DangerFound | Execute(query: string)

  const OnlySelectText := "Разрешены ТОЛЬКО SELECT-запросы!"
  const DangerText := "Опасная команда обнаружена! Запрещено."

  /** The guard applied to the posted `sql` field. */
  function SqlGuard(posted: string): SqlVerdict {
    var query := Strip(posted);
    var lowered := Lower(query);
    if !StartsWith(lowered, "select") then OnlySelect
    else if AnyIn(lowered, DangerWords) then DangerFound
    else Execute(query)
  }

  /**
   * A query runs exactly when its lower-cased, stripped text starts with
   * "select" and holds none of the danger words; what runs is the stripped text.
   */
  lemma SqlGuardRuns(posted: string)
    ensures var lowered := Lower(Strip(posted));
      SqlGuard(posted).Execute? <==>
        StartsWith(lowered, "select") && forall k :: 0 <= k < |DangerWords| ==> !Contains(lowered, DangerWords[k])
    ensures SqlGuard(posted).Execute? ==> SqlGuard(posted).query == Strip(posted)
  {
    AnyInExists(Lower(Strip(posted)), DangerWords);
  }

  /**
   * "created_at" holds the danger word "create" and "updated_at" holds
   * "update", so no query that names either timestamp column gets through.
   */
  lemma TimestampColumnsBlocked(posted: string)
    requires Contains(Lower(Strip(posted)), "created_at") || Contains(Lower(Strip(posted)), "updated_at")
    ensures !SqlGuard(posted).Execute?
  {
    var lowered := Lower(Strip(posted));
    if Contains(lowered, "created_at") {
      assert "create" + "d_at" == "created_at";
      ColumnHoldsWord(lowered, "create", 5);
    } else {
      assert "update" + "d_at" == "updated_at";
      ColumnHoldsWord(lowered, "update", 1);
    }
  }

  /** A text naming `word + "d_at"`, where `word` is the `k`-th danger word, is caught by the guard. */
  lemma ColumnHoldsWord(lowered: string, word: string, k: nat)
    requires k < |DangerWords| && DangerWords[k] == word && Contains(lowered, word + "d_at")
    ensures AnyIn(lowered, DangerWords)
  {
    ContainsPrefix(lowered, word, "d_at");
    AnyInExists(lowered, DangerWords);
  }

  /** What the panel renders: the query text, and the guard's error if it refused. */
  function SqlPanelError(v: SqlVerdict): Option<string> {
    match v
    case OnlySelect => Some(OnlySelectText)
    case DangerFound => Some(DangerText)
    case Execute(_) => None
  }

  // ---------------------------------------------------------------------
  // api_save_category

  /** The reply's `category`: id, name, budget, emoji. */
  datatype CategoryRecord = CategoryRecord(id: int, name: string, budget: Cents, emoji: string)

  datatype CategoryReply = CategorySaved(category: CategoryRecord) | CategoryFailed(error: ViewError)

  /** The index of the user's category of this name, if there is one. */
  function FindCategory(categories: seq<BudgetCategory>, userId: int, name: string): (r: Option<nat>)
    ensures r.None? <==> !JsonIO.NameTaken(categories, userId, name)
    ensures r.Some? ==> r.value < |categories| && categories[r.value].userId == userId && categories[r.value].name == name
  {
    if categories == [] then None
    else
      var n := |categories| - 1;
      var before := FindCategory(categories[..n], userId, name);
      assert forall k :: 0 <= k < n ==> categories[..n][k] == categories[k];
      if before.Some? then before
      else if categories[n].userId == userId && categories[n].name == name then Some(n)
      else None
  }

  /** The values `api_save_category` reads from the body, in the order it reads them. */
  datatype CategoryInput = CategoryInput(name: string, budget: Cents, emoji: Option<string>)

  function ReadCategoryInput(body: JsonIO.Parsed, env: ViewEnv): Result<CategoryInput, Fault> {
    match BodyFields(body)
    case Err(f) => Err(f)
    case Ok(data) =>
      var rawName := JsonIO.Get(data, "name", JsonIO.JString(""));
      if !rawName.JString? then Err(NoAttribute(JsonIO.TypeName(rawName), "strip"))
      else
        match env.budgetOf(JsonIO.Get(data, "budget", JsonIO.JInt(0)))
        case Err(text) => Err(Conversion(text))
        case Ok(budget) =>
          var emoji := JsonIO.TextOf(JsonIO.Get(data, "emoji", JsonIO.JString("")), env.json);
          Ok(CategoryInput(Strip(rawName.s), budget, emoji))
  }

  /**
   * `get_or_create` on (user, name): overwrite the budget and emoji of the
   * category found, or create one with them.
   */
  function UpsertCategory(db: Store, userId: int, input: CategoryInput, now: Timestamp): (Store, CategoryReply) {
    if input.emoji.None? then (db, CategoryFailed(Caught(NotNullFailed("main_budgetcategory.emoji"))))
    else
      match FindCategory(db.categories, userId, input.name)
      case Some(k) =>
        var c := db.categories[k].(budget := input.budget, emoji := input.emoji.value, updatedAt := now);
        (db.(categories := db.categories[k := c]), CategorySaved(CategoryRecord(c.id, c.name, input.budget, c.emoji)))
      case None =>
        var c := BudgetCategory(db.nextId, userId, input.name, input.budget, input.emoji.value, now, now);
        (db.(categories := db.categories + [c], nextId := db.nextId + 1),
         CategorySaved(CategoryRecord(c.id, c.name, input.budget, c.emoji)))
  }

  /** `api_save_category(request)`: the store afterwards and the reply. */
  function SaveCategory(db: Store, userId: int, req: Request, env: ViewEnv): (r: (Store, CategoryReply))
    ensures req.verb != "POST" ==> r == (db, CategoryFailed(WrongMethod(InvalidMethod)))
    ensures r.1.CategoryFailed? ==> r.0 == db
  {
    if req.verb != "POST" then (db, CategoryFailed(WrongMethod(InvalidMethod)))
    else
      match ReadCategoryInput(req.body, env)
      case Err(f) => (db, CategoryFailed(Caught(f)))
      case Ok(input) =>
        if input.name == "" then (db, CategoryFailed(NameRequired))
        else UpsertCategory(db, userId, input, env.json.now)
  }

  /**
   * The upsert keyed by (user, stripped name): after a save the user has
   * exactly the category asked for, with the posted budget and emoji; a name
   * the user already had is updated in place and nothing else changes; a new
   * name adds one category at the end.
   */
  lemma SaveCategoryUpsert(db: Store, userId: int, req: Request, env: ViewEnv)
    ensures var (out, reply) := SaveCategory(db, userId, req, env);
      reply.CategorySaved? ==>
        var input := ReadCategoryInput(req.body, env).value;
        input.name != "" && input.emoji.Some? && reply.category.name == input.name
        && reply.category.budget == input.budget && reply.category.emoji == input.emoji.value
        && out.transactions == db.transactions && out.accounts == db.accounts && out.goals == db.goals
        && (JsonIO.NameTaken(db.categories, userId, input.name) ==>
              |out.categories| == |db.categories| && out.nextId == db.nextId
              && exists k :: 0 <= k < |db.categories| && db.categories[k].userId == userId
                   && db.categories[k].name == input.name
                   && out.categories == db.categories[k := db.categories[k].(budget := input.budget,
                        emoji := input.emoji.value, updatedAt := env.json.now)])
        && (!JsonIO.NameTaken(db.categories, userId, input.name) ==>
              out.categories == db.categories + [BudgetCategory(db.nextId, userId, input.name, input.budget,
                input.emoji.value, env.json.now, env.json.now)]
              && out.nextId == db.nextId + 1)
  {
  }

  /** A save never gives a user two categories of one name. */
  lemma SaveCategoryKeepsNamesUnique(db: Store, userId: int, req: Request, env: ViewEnv)
    requires UniqueCategoryNames(db.categories)
    ensures UniqueCategoryNames(SaveCategory(db, userId, req, env).0.categories)
  {
    if req.verb == "POST" && ReadCategoryInput(req.body, env).Ok? {
      var input := ReadCategoryInput(req.body, env).value;
      if input.name != "" && input.emoji.Some? {
        var found := FindCategory(db.categories, userId, input.name);
        if found.Some? {
          var k := found.value;
          var c := db.categories[k].(budget := input.budget, emoji := input.emoji.value, updatedAt := env.json.now);
          RenameFree(db.categories, k, c);
        } else {
          var c := BudgetCategory(db.nextId, userId, input.name, input.budget, input.emoji.value, env.json.now, env.json.now);
          JsonIO.AddFreshCategory(db.categories, c);
        }
      }
    }
  }

  /** Replacing a category by one with the same user and name keeps the names unique. */
  lemma RenameFree(categories: seq<BudgetCategory>, k: nat, c: BudgetCategory)
    requires k < |categories| && c.userId == categories[k].userId && c.name == categories[k].name
    requires UniqueCategoryNames(categories)
    ensures UniqueCategoryNames(categories[k := c])
  {
    var after := categories[k := c];
    forall i, j | 0 <= i < j < |after| && after[i].userId == after[j].userId ensures after[i].name != after[j].name {
      assert after[i].userId == categories[i].userId && after[i].name == categories[i].name;
      assert after[j].userId == categories[j].userId && after[j].name == categories[j].name;
    }
  }

  // ---------------------------------------------------------------------
  // api_delete_category

  datatype DeleteReply = CategoryDeleted | DeleteFailed(error: ViewError)

  const DeletedText := "Категория удалена"

  /** The category is the user's and has this id: what `get(id=..., user=...)` matches. */
  predicate Matches(c: BudgetCategory, key: int, userId: int) {
    c.id == key && c.userId == userId
  }

  /** The table after `category.delete()`: the matched row is gone, the others keep their order. */
  function Without(categories: seq<BudgetCategory>, key: int, userId: int): (r: seq<BudgetCategory>)
    ensures forall c :: c in r <==> c in categories && !Matches(c, key, userId)
    ensures |r| <= |categories|
  {
    if categories == [] then []
    else
      var n := |categories| - 1;
      Without(categories[..n], key, userId) + (if Matches(categories[n], key, userId) then [] else [categories[n]])
  }

  predicate HasMatch(categories: seq<BudgetCategory>, key: int, userId: int) {
    exists k :: 0 <= k < |categories| && Matches(categories[k], key, userId)
  }

  /** `api_delete_category(request)`: the store afterwards and the reply. */
  function DeleteCategory(db: Store, userId: int, req: Request, env: ViewEnv): (r: (Store, DeleteReply))
    ensures req.verb != "POST" ==> r == (db, DeleteFailed(WrongMethod(InvalidMethod)))
    ensures r.1.DeleteFailed? ==> r.0 == db
  {
    if req.verb != "POST" then (db, DeleteFailed(WrongMethod(InvalidMethod)))
    else
      match BodyFields(req.body)
      case Err(f) => (db, DeleteFailed(Caught(f)))
      case Ok(data) =>
        match env.keyOf(JsonIO.Get(data, "id", JsonIO.JNull))
        case Err(text) => (db, DeleteFailed(Caught(Conversion(text))))
        case Ok(None) => (db, DeleteFailed(CategoryNotFound))
        case Ok(Some(key)) =>
          if HasMatch(db.categories, key, userId) then (db.(categories := Without(db.categories, key, userId)), CategoryDeleted)
          else (db, DeleteFailed(CategoryNotFound))
  }

  /**
   * A delete removes the user's category of the posted id and nothing else;
   * an id that names no category of this user, including another user's,
   * is "not found" and leaves the store as it was.
   */
  lemma DeleteCategoryEffect(db: Store, userId: int, req: Request, env: ViewEnv)
    ensures var (out, reply) := DeleteCategory(db, userId, req, env);
      reply.CategoryDeleted? ==>
        req.verb == "POST" && BodyFields(req.body).Ok?
        && var key := env.keyOf(JsonIO.Get(BodyFields(req.body).value, "id", JsonIO.JNull));
        key.Ok? && key.value.Some? && HasMatch(db.categories, key.value.value, userId)
        && out == db.(categories := out.categories)
        && forall c :: c in out.categories <==> c in db.categories && !Matches(c, key.value.value, userId)
    ensures var (out, reply) := DeleteCategory(db, userId, req, env);
      reply == DeleteFailed(CategoryNotFound) ==> out == db
  {
  }

  // ---------------------------------------------------------------------
  // api_save_goal_forecast

  datatype GoalReply = GoalSaved | GoalFailed(error: ViewError)

  /**
   * `for acc_id in data.get('accounts', [])`: what Python iterates over. A
   * list gives its items, a text its characters and an object (a `dict`)
   * its keys, in the order `json.loads` inserted them.
   */
  function Iterated(v: Json, env: ViewEnv): Result<seq<Json>, Fault> {
    match v
    case JArray(items) => Ok(items)
    case JString(s) => Ok(seq(|s|, k requires 0 <= k < |s| => JsonIO.JString([s[k]])))
    case JObject(m) =>
      var keys := env.keysOf(m);
      Ok(seq(|keys|, k requires 0 <= k < |keys| => JsonIO.JString(keys[k])))
    case _ => Err(Conversion("'" + JsonIO.TypeName(v) + "' object is not iterable"))
  }

  /** `keys` lists the keys of `m`, each once, as a `dict` does. */
  predicate ListsKeys(keys: seq<string>, m: map<string, Json>) {
    (forall key :: key in keys ==> key in m) && (forall key :: key in m ==> key in keys)
    && forall i, j :: 0 <= i < j < |keys| ==> keys[i] != keys[j]
  }

  /**
   * Looping over an object walks its keys: each key once, as a text, and
   * nothing that is not a key. Only the null, booleans and numbers are not
   * iterable.
   */
  lemma IteratedObject(m: map<string, Json>, env: ViewEnv)
    requires ListsKeys(env.keysOf(m), m)
    ensures Iterated(JsonIO.JObject(m), env).Ok?
    ensures var ids := Iterated(JsonIO.JObject(m), env).value;
      |ids| == |m| && (forall v: Json :: v in ids <==> v.JString? && v.s in m)
      && forall i, j :: 0 <= i < j < |ids| ==> ids[i] != ids[j]
  {
    var keys := env.keysOf(m);
    var ids := Iterated(JsonIO.JObject(m), env).value;
    assert forall key :: key in m <==> key in keys;
    assert forall v: Json :: v in ids ==> v.JString? && v.s in m;
    forall v: Json | v.JString? && v.s in m ensures v in ids {
      var i :| 0 <= i < |keys| && keys[i] == v.s;
      assert ids[i] == v;
    }
    DistinctCard(keys, m.Keys);
  }

  lemma {:induction false} DistinctCard(keys: seq<string>, ks: set<string>)
    requires (forall key :: key in keys <==> key in ks) && forall i, j :: 0 <= i < j < |keys| ==> keys[i] != keys[j]
    ensures |keys| == |ks|
    decreases |keys|
  {
    if keys != [] {
      var n := |keys| - 1;
      assert forall i :: 0 <= i < n ==> keys[..n][i] == keys[i];
      forall key ensures key in keys[..n] <==> key in ks - {keys[n]} {
        if key in keys[..n] {
          var i :| 0 <= i < n && keys[..n][i] == key;
        }
        if key in ks - {keys[n]} {
          var i :| 0 <= i < |keys| && keys[i] == key;
          assert i < n;
          assert keys[..n][i] == key;
        }
      }
      DistinctCard(keys[..n], ks - {keys[n]});
    } else {
      assert forall key :: key !in ks;
      assert ks == {};
    }
  }

  predicate IsNotIterable(v: Json) {
    v.JNull? || v.JBool? || v.JInt? || v.JFloat?
  }

  /** Which values the loop refuses, with Python's message. */
  lemma IteratedFails(v: Json, env: ViewEnv)
    ensures Iterated(v, env).Err? <==> IsNotIterable(v)
    ensures Iterated(v, env).Err? ==>
      Iterated(v, env).error == Conversion("'" + JsonIO.TypeName(v) + "' object is not iterable")
  {
  }

  predicate AccountExists(accounts: seq<Account>, key: int) {
    exists k :: 0 <= k < |accounts| && accounts[k].id == key
  }

  /** `goal.linked_accounts.add(acc)`: a relation holds each account once. */
  function AddLink(links: seq<int>, key: int): seq<int> {
    if key in links then links else links + [key]
  }

  /**
   * The links after the loop over the posted ids has run them in order:
   * `Account.objects.get(id=acc_id)` for each (any user's account), stopping
   * at the first one that fails.
   */
  function LinkLoop(ids: seq<Json>, accounts: seq<Account>, env: ViewEnv): (r: (seq<int>, Option<Fault>))
    ensures forall k :: 0 <= k < |r.0| ==> AccountExists(accounts, r.0[k])
    ensures forall i, j :: 0 <= i < j < |r.0| ==> r.0[i] != r.0[j]
  {
    if ids == [] then ([], None)
    else
      var (links, fault) := LinkLoop(ids[..|ids| - 1], accounts, env);
      if fault.Some? then (links, fault) else LinkStep(links, ids[|ids| - 1], accounts, env)
  }

  /** One turn of the loop: look the account up and add it, or stop with the exception. */
  function LinkStep(links: seq<int>, v: Json, accounts: seq<Account>, env: ViewEnv): (r: (seq<int>, Option<Fault>))
    requires forall k :: 0 <= k < |links| ==> AccountExists(accounts, links[k])
    requires forall i, j :: 0 <= i < j < |links| ==> links[i] != links[j]
    ensures forall k :: 0 <= k < |r.0| ==> AccountExists(accounts, r.0[k])
    ensures forall i, j :: 0 <= i < j < |r.0| ==> r.0[i] != r.0[j]
    ensures r.1.None? <==> KeyOf(v, env).Some? && AccountExists(accounts, KeyOf(v, env).value)
    ensures r.1.None? ==> forall x :: x in r.0 <==> x in links || Some(x) == KeyOf(v, env)
    ensures r.1.Some? ==> r.0 == links
  {
    match env.keyOf(v)
    case Err(text) => (links, Some(Conversion(text)))
    case Ok(None) => (links, Some(DoesNotExist("Account")))
    case Ok(Some(key)) =>
      if AccountExists(accounts, key) then (AddLink(links, key), None)
      else (links, Some(DoesNotExist("Account")))
  }

  /** The primary key a posted value converts to, if it converts to one. */
  function KeyOf(v: Json, env: ViewEnv): Option<int> {
    if env.keyOf(v).Ok? then env.keyOf(v).value else None
  }

  /**
   * When the loop completes, every posted id named an existing account, and
   * the links are exactly the accounts they name.
   */
  lemma LinkLoopExact(ids: seq<Json>, accounts: seq<Account>, env: ViewEnv)
    ensures var (links, fault) := LinkLoop(ids, accounts, env);
      fault.None? ==>
        (forall k :: 0 <= k < |ids| ==> KeyOf(ids[k], env).Some? && AccountExists(accounts, KeyOf(ids[k], env).value))
        && forall x :: x in links <==> exists k :: 0 <= k < |ids| && KeyOf(ids[k], env) == Some(x)
  {
    LinkLoopFound(ids, accounts, env);
    LinkLoopLinks(ids, accounts, env);
  }

  lemma {:induction false} LinkLoopFound(ids: seq<Json>, accounts: seq<Account>, env: ViewEnv)
    ensures LinkLoop(ids, accounts, env).1.None? ==>
      forall k :: 0 <= k < |ids| ==> KeyOf(ids[k], env).Some? && AccountExists(accounts, KeyOf(ids[k], env).value)
    decreases |ids|
  {
    if ids != [] {
      var n := |ids| - 1;
      LinkLoopFound(ids[..n], accounts, env);
      assert forall k :: 0 <= k < n ==> ids[..n][k] == ids[k];
    }
  }

  lemma {:induction false} LinkLoopLinks(ids: seq<Json>, accounts: seq<Account>, env: ViewEnv)
    ensures var (links, fault) := LinkLoop(ids, accounts, env);
      fault.None? ==> forall x :: x in links <==> exists k :: 0 <= k < |ids| && KeyOf(ids[k], env) == Some(x)
    decreases |ids|
  {
    if ids != [] {
      var n := |ids| - 1;
      LinkLoopLinks(ids[..n], accounts, env);
      var (links, fault) := LinkLoop(ids[..n], accounts, env);
      if fault.None? {
        var (after, stop) := LinkStep(links, ids[n], accounts, env);
        if stop.None? {
          forall x | x in after ensures exists k :: 0 <= k < |ids| && KeyOf(ids[k], env) == Some(x) {
            if x in links {
              var k :| 0 <= k < n && KeyOf(ids[..n][k], env) == Some(x);
              assert ids[..n][k] == ids[k];
            } else {
              assert KeyOf(ids[n], env) == Some(x);
            }
          }
          forall x, k | 0 <= k < |ids| && KeyOf(ids[k], env) == Some(x) ensures x in after {
            if k < n {
              assert ids[..n][k] == ids[k];
            }
          }
        }
      }
    }
  }

  /** Once the loop has stopped at row `i`, the later rows change nothing. */
  lemma {:induction false} LinkLoopStops(ids: seq<Json>, i: nat, accounts: seq<Account>, env: ViewEnv)
    requires i <= |ids|
    ensures var (links, fault) := LinkLoop(ids[..i], accounts, env);
      fault.Some? ==> LinkLoop(ids, accounts, env) == (links, fault)
    decreases |ids|
  {
    if i == |ids| {
      assert ids[..i] == ids;
    } else {
      var n := |ids| - 1;
      assert ids[..n][..i] == ids[..i];
      LinkLoopStops(ids[..n], i, accounts, env);
    }
  }

  /**
   * As written, `Account.objects.get(id=acc_id)` is not restricted to the
   * user: when user 1 posts the id 7 of an account of user 2, the goal is
   * linked to that account.
   */
  lemma ForeignAccountLinked(env: ViewEnv, createdAt: Timestamp)
    requires env.keyOf(JsonIO.JInt(7)) == Ok(Some(7))
    ensures var other := Account(7, 2, "чужой", 0, "cash", "", createdAt, createdAt);
      LinkLoop([JsonIO.JInt(7)], [other], env) == ([7], None) && other.userId != 1
  {
    var other := Account(7, 2, "чужой", 0, "cash", "", createdAt, createdAt);
    assert AccountExists([other], 7) by { assert [other][0].id == 7; }
    assert [JsonIO.JInt(7)][..0] == [];
    assert LinkLoop([JsonIO.JInt(7)][..0], [other], env) == ([], None);
    assert AddLink([], 7) == [7] by { assert [] + [7] == [7]; }
    assert LinkStep([], JsonIO.JInt(7), [other], env) == ([7], None);
  }

  /** The user's own accounts: what `Account.objects.get(id=acc_id, user=request.user)` searches. */
  function OwnAccounts(accounts: seq<Account>, userId: int): (r: seq<Account>)
    ensures forall a :: a in r <==> a in accounts && a.userId == userId
  {
    if accounts == [] then []
    else
      var n := |accounts| - 1;
      OwnAccounts(accounts[..n], userId) + (if accounts[n].userId == userId then [accounts[n]] else [])
  }

  /**
   * With the lookup restricted to the user's accounts, every link is an
   * account of that user, and an id of another user's account stops the
   * loop with "does not exist" before anything is linked to it.
   */
  lemma OwnLinksOnly(ids: seq<Json>, accounts: seq<Account>, userId: int, env: ViewEnv)
    ensures var (links, fault) := LinkLoop(ids, OwnAccounts(accounts, userId), env);
      forall x :: x in links ==> exists a :: a in accounts && a.id == x && a.userId == userId
    ensures var own := OwnAccounts(accounts, userId);
      forall v: Json :: KeyOf(v, env).Some? && !(exists a :: a in accounts && a.id == KeyOf(v, env).value && a.userId == userId)
        ==> LinkLoop([v], own, env) == ([], Some(DoesNotExist("Account")))
  {
    var own := OwnAccounts(accounts, userId);
    var (links, fault) := LinkLoop(ids, own, env);
    forall x | x in links ensures exists a :: a in accounts && a.id == x && a.userId == userId {
      var i :| 0 <= i < |links| && links[i] == x;
      var k :| 0 <= k < |own| && own[k].id == x;
      assert own[k] in own;
    }
    forall v: Json | KeyOf(v, env).Some? && !(exists a :: a in accounts && a.id == KeyOf(v, env).value && a.userId == userId)
      ensures LinkLoop([v], own, env) == ([], Some(DoesNotExist("Account")))
    {
      assert [v][..0] == [];
      assert !AccountExists(own, KeyOf(v, env).value) by {
        forall k | 0 <= k < |own| ensures own[k].id != KeyOf(v, env).value {
          assert own[k] in own;
        }
      }
    }
  }

  /**
   * Posting `accounts` as an object links the accounts its keys name: when
   * no lookup fails, the links are exactly the keys' accounts.
   */
  lemma ObjectKeysLinked(m: map<string, Json>, accounts: seq<Account>, env: ViewEnv)
    requires ListsKeys(env.keysOf(m), m)
    ensures var (links, fault) := LinkLoop(Iterated(JsonIO.JObject(m), env).value, accounts, env);
      fault.None? ==> forall x :: x in links <==> exists key :: key in m && KeyOf(JsonIO.JString(key), env) == Some(x)
  {
    IteratedObject(m, env);
    var ids := Iterated(JsonIO.JObject(m), env).value;
    LinkLoopExact(ids, accounts, env);
    var (links, fault) := LinkLoop(ids, accounts, env);
    if fault.None? {
      forall x ensures x in links <==> exists key :: key in m && KeyOf(JsonIO.JString(key), env) == Some(x) {
        if x in links {
          var j :| 0 <= j < |ids| && KeyOf(ids[j], env) == Some(x);
          assert ids[j] in ids;
          assert ids[j] == JsonIO.JString(ids[j].s);
        }
        if exists key :: key in m && KeyOf(JsonIO.JString(key), env) == Some(x) {
          var key :| key in m && KeyOf(JsonIO.JString(key), env) == Some(x);
          assert JsonIO.JString(key) in ids;
          var j :| 0 <= j < |ids| && ids[j] == JsonIO.JString(key);
        }
      }
    }
  }

  /** The goal the view edits: an existing goal of the user (by index) or a new one. */
  datatype Target = Existing(index: nat) | Fresh

  function FindGoal(goals: seq<Goal>, key: int, userId: int): (r: Option<nat>)
    ensures r.Some? ==> r.value < |goals| && goals[r.value].id == key && goals[r.value].userId == userId
    ensures r.None? ==> forall k :: 0 <= k < |goals| ==> !(goals[k].id == key && goals[k].userId == userId)
  {
    if goals == [] then None
    else
      var n := |goals| - 1;
      var before := FindGoal(goals[..n], key, userId);
      assert forall k :: 0 <= k < n ==> goals[..n][k] == goals[k];
      if before.Some? then before
      else if goals[n].id == key && goals[n].userId == userId then Some(n)
      else None
  }

  /** `Goal.objects.get(id=goal_id, user=...)` for a truthy id, `Goal(user=...)` otherwise. */
  function ChooseGoal(data: map<string, Json>, goals: seq<Goal>, userId: int, env: ViewEnv): Result<Target, Fault> {
    var goalId := JsonIO.Get(data, "id", JsonIO.JNull);
    if !JsonIO.Truthy(goalId) then Ok(Fresh)
    else
      match env.keyOf(goalId)
      case Err(text) => Err(Conversion(text))
      case Ok(None) => Err(DoesNotExist("Goal"))
      case Ok(Some(key)) =>
        match FindGoal(goals, key, userId)
        case Some(k) => Ok(Existing(k))
        case None => Err(DoesNotExist("Goal"))
  }

  /** The fields `goal.save()` writes, once converted. */
  datatype GoalInput = GoalInput(name: string, target: Cents, useOnly: bool)

  /**
   * The assignments and `goal.save()`: `data['name']` and
   * `data['target_amount']` must be present; the columns convert in table
   * order and a null name fails the write.
   */
  function ReadGoalInput(data: map<string, Json>, env: ViewEnv): Result<GoalInput, Fault> {
    if "name" !in data then Err(KeyMissing("name"))
    else if "target_amount" !in data then Err(KeyMissing("target_amount"))
    else
      match env.decimalOf(data["target_amount"])
      case Err(text) => Err(Conversion(text))
      case Ok(target) =>
        match env.flagOf(JsonIO.Get(data, "use_only_accounts", JsonIO.JBool(false)))
        case Err(text) => Err(Conversion(text))
        case Ok(useOnly) =>
          match JsonIO.TextOf(data["name"], env.json)
          case None => Err(NotNullFailed("main_goal.name"))
          case Some(name) => Ok(GoalInput(name, target, useOnly))
  }

  /**
   * The store after `goal.save()`, and the index of the saved goal: it holds
   * the posted name, target and linked-only flag, and keeps (or, when new,
   * starts with) its id, owner, current amount and links; no other record
   * changes.
   */
  function SaveGoal(db: Store, userId: int, target: Target, input: GoalInput, now: Timestamp): (r: (Store, nat))
    requires target.Existing? ==> target.index < |db.goals|
    ensures r.1 < |r.0.goals|
    ensures var g := r.0.goals[r.1];
      g.name == input.name && g.targetAmount == input.target && g.useOnlyLinkedAccounts == input.useOnly
      && g.updatedAt == now
    ensures r.0.accounts == db.accounts && r.0.transactions == db.transactions && r.0.categories == db.categories
    ensures target.Existing? ==>
      var k := target.index;
      r.1 == k && |r.0.goals| == |db.goals| && r.0.nextId == db.nextId
      && (forall i :: 0 <= i < |db.goals| && i != k ==> r.0.goals[i] == db.goals[i])
      && r.0.goals[k] == db.goals[k].(name := input.name, targetAmount := input.target,
                                      useOnlyLinkedAccounts := input.useOnly, updatedAt := now)
    ensures target.Fresh? ==>
      r.1 == |db.goals| && r.0.goals[..|db.goals|] == db.goals && |r.0.goals| == |db.goals| + 1
      && r.0.nextId == db.nextId + 1
      && var g := r.0.goals[r.1];
      g.id == db.nextId && g.userId == userId && g.currentAmount == 0 && g.linkedAccounts == [] && g.createdAt == now
  {
    match target
    case Existing(k) =>
      var g := db.goals[k].(name := input.name, targetAmount := input.target, useOnlyLinkedAccounts := input.useOnly,
                            updatedAt := now);
      (db.(goals := db.goals[k := g]), k)
    case Fresh =>
      var g := Goal(db.nextId, userId, input.name, input.target, 0, input.useOnly, [], now, now);
      (db.(goals := db.goals + [g], nextId := db.nextId + 1), |db.goals|)
  }

  /** Sets the links of one goal, leaving every other record as it was. */
  function WithLinks(db: Store, k: nat, links: seq<int>): Store
    requires k < |db.goals|
  {
    db.(goals := db.goals[k := db.goals[k].(linkedAccounts := links)])
  }

  /**
   * `api_save_goal_forecast(request)`. The goal is saved before its links are
   * rewritten, and nothing runs in a transaction: when a posted account id
   * fails, the goal stays saved with the links added before it.
   */
  function SaveGoalForecastSpec(db: Store, userId: int, req: Request, env: ViewEnv): (r: (Store, GoalReply))
    ensures req.verb != "POST" ==> r == (db, GoalFailed(WrongMethod(PostOnly)))
  {
    if req.verb != "POST" then (db, GoalFailed(WrongMethod(PostOnly)))
    else
      match BodyFields(req.body)
      case Err(f) => (db, GoalFailed(Caught(f)))
      case Ok(data) =>
        match ChooseGoal(data, db.goals, userId, env)
        case Err(f) => (db, GoalFailed(Caught(f)))
        case Ok(target) =>
          match ReadGoalInput(data, env)
          case Err(f) => (db, GoalFailed(Caught(f)))
          case Ok(input) =>
            var (saved, k) := SaveGoal(db, userId, target, input, env.json.now);
            match Iterated(JsonIO.Get(data, "accounts", JsonIO.JArray([])), env)
            case Err(f) => (WithLinks(saved, k, []), GoalFailed(Caught(f)))
            case Ok(ids) =>
              var (links, fault) := LinkLoop(ids, saved.accounts, env);
              (WithLinks(saved, k, links), if fault.Some? then GoalFailed(Caught(fault.value)) else GoalSaved)
  }

  /** The same view, with the loop over the posted account ids written out. */
  method SaveGoalForecast(db: Store, userId: int, req: Request, env: ViewEnv) returns (out: Store, reply: GoalReply)
    ensures (out, reply) == SaveGoalForecastSpec(db, userId, req, env)
  {
    out := db;
    if req.verb != "POST" {
      return out, GoalFailed(WrongMethod(PostOnly));
    }
    var body := BodyFields(req.body);
    if body.Err? {
      return out, GoalFailed(Caught(body.error));
    }
    var data := body.value;
    var target := ChooseGoal(data, db.goals, userId, env);
    if target.Err? {
      return out, GoalFailed(Caught(target.error));
    }
    var input := ReadGoalInput(data, env);
    if input.Err? {
      return out, GoalFailed(Caught(input.error));
    }
    var (saved, k) := SaveGoal(db, userId, target.value, input.value, env.json.now);
    var ids := Iterated(JsonIO.Get(data, "accounts", JsonIO.JArray([])), env);
    if ids.Err? {
      return WithLinks(saved, k, []), GoalFailed(Caught(ids.error));
    }
    var fault;
    out, fault := Relink(saved, k, ids.value, env);
    reply := if fault.Some? then GoalFailed(Caught(fault.value)) else GoalSaved;
  }

  /**
   * `goal.linked_accounts.clear()` and the loop that adds the posted
   * accounts one by one, stopping at the first lookup that fails.
   */
  method Relink(saved: Store, k: nat, ids: seq<Json>, env: ViewEnv) returns (out: Store, fault: Option<Fault>)
    requires k < |saved.goals|
    ensures (LinkLoop(ids, saved.accounts, env).0, fault) == LinkLoop(ids, saved.accounts, env)
    ensures out == WithLinks(saved, k, LinkLoop(ids, saved.accounts, env).0)
  {
    out := WithLinks(saved, k, []);
    var links: seq<int> := [];
    var i := 0;
    while i < |ids|
      invariant 0 <= i <= |ids|
      invariant (links, None) == LinkLoop(ids[..i], saved.accounts, env)
      invariant out == WithLinks(saved, k, links)
    {
      assert ids[..i + 1][..i] == ids[..i];
      var key := env.keyOf(ids[i]);
      if key.Err? || key.value.None? || !AccountExists(saved.accounts, key.value.value) {
        fault := Some(if key.Err? then Conversion(key.error) else DoesNotExist("Account"));
        assert LinkLoop(ids[..i + 1], saved.accounts, env) == (links, fault);
        LinkLoopStops(ids, i + 1, saved.accounts, env);
        return;
      }
      links := AddLink(links, key.value.value);
      out := WithLinks(saved, k, links);
      i := i + 1;
    }
    assert ids[..i] == ids;
    fault := None;
  }

  /**
   * After a save that succeeds, the goal has exactly the posted accounts as
   * its links, and its current amount is the one it had (0 for a new goal):
   * the view never writes it. Once the goal and its fields have been read,
   * the goal is saved with the posted name, target and linked-only flag,
   * even when a later account lookup fails, and only goals change.
   */
  lemma SaveGoalForecastLinks(db: Store, userId: int, req: Request, env: ViewEnv)
    ensures var (out, reply) := SaveGoalForecastSpec(db, userId, req, env);
      (req.verb == "POST" && BodyFields(req.body).Ok?
       && ChooseGoal(BodyFields(req.body).value, db.goals, userId, env).Ok?
       && ReadGoalInput(BodyFields(req.body).value, env).Ok?) ==>
        var data := BodyFields(req.body).value;
        var input := ReadGoalInput(data, env).value;
        var k := match ChooseGoal(data, db.goals, userId, env).value case Existing(i) => i case Fresh => |db.goals|;
        k < |out.goals| && out.goals[k].name == input.name && out.goals[k].targetAmount == input.target
        && out.goals[k].useOnlyLinkedAccounts == input.useOnly && out.goals[k].userId == userId
        && out.accounts == db.accounts && out.transactions == db.transactions && out.categories == db.categories
    ensures var (out, reply) := SaveGoalForecastSpec(db, userId, req, env);
      reply.GoalSaved? ==>
        var data := BodyFields(req.body).value;
        var ids := Iterated(JsonIO.Get(data, "accounts", JsonIO.JArray([])), env).value;
        ChooseGoal(data, db.goals, userId, env).Ok? && ReadGoalInput(data, env).Ok?
        && match ChooseGoal(data, db.goals, userId, env).value
           case Existing(k) =>
             |out.goals| == |db.goals| && out.goals[k].currentAmount == db.goals[k].currentAmount
             && out.goals[k].id == db.goals[k].id
             && (forall x :: x in out.goals[k].linkedAccounts <==> exists j :: 0 <= j < |ids| && KeyOf(ids[j], env) == Some(x))
             && forall i :: 0 <= i < |db.goals| && i != k ==> out.goals[i] == db.goals[i]
           case Fresh =>
             |out.goals| == |db.goals| + 1 && out.goals[..|db.goals|] == db.goals
             && out.goals[|db.goals|].currentAmount == 0 && out.goals[|db.goals|].userId == userId
             && forall x :: x in out.goals[|db.goals|].linkedAccounts <==> exists j :: 0 <= j < |ids| && KeyOf(ids[j], env) == Some(x)
  {
    if req.verb == "POST" && BodyFields(req.body).Ok? {
      var data := BodyFields(req.body).value;
      var target := ChooseGoal(data, db.goals, userId, env);
      var input := ReadGoalInput(data, env);
      var ids := Iterated(JsonIO.Get(data, "accounts", JsonIO.JArray([])), env);
      if target.Ok? && input.Ok? {
        var (saved, k) := SaveGoal(db, userId, target.value, input.value, env.json.now);
        assert k == match target.value case Existing(i) => i case Fresh => |db.goals|;
        assert saved.goals[k].userId == userId;
        if ids.Ok? {
          LinkLoopExact(ids.value, db.accounts, env);
        }
      }
    }
  }

  // ---------------------------------------------------------------------
  // api_goals and index: what the pages receive

  /** One entry of `api_goals`. */
  datatype GoalEntry = GoalEntry(id: int, name: string, target: Cents, targetAmount: Cents, currentAmount: Cents,
                                 useOnlyAccounts: bool, accounts: seq<int>)

  function GoalEntryOf(g: Goal): GoalEntry {
    GoalEntry(g.id, g.name, g.targetAmount, g.targetAmount, g.currentAmount, g.useOnlyLinkedAccounts, g.linkedAccounts)
  }

  /** `api_goals`: the user's goals in table order. */
  function ApiGoals(goals: seq<Goal>, userId: int): (r: seq<GoalEntry>) {
    var mine := GoalsOf(goals, userId);
    seq(|mine|, k requires 0 <= k < |mine| => GoalEntryOf(mine[k]))
  }

  /**
   * Each entry of `api_goals` is one of the user's goals: both `target` and
   * `target_amount` carry its target, and `accounts` its linked ids.
   */
  lemma ApiGoalsEntries(goals: seq<Goal>, userId: int)
    ensures |ApiGoals(goals, userId)| == |GoalsOf(goals, userId)|
    ensures forall k :: 0 <= k < |ApiGoals(goals, userId)| ==>
      var e, g := ApiGoals(goals, userId)[k], GoalsOf(goals, userId)[k];
      g in goals && g.userId == userId && e.id == g.id && e.target == e.targetAmount == g.targetAmount
      && e.currentAmount == g.currentAmount && e.useOnlyAccounts == g.useOnlyLinkedAccounts && e.accounts == g.linkedAccounts
  {
    var mine := GoalsOf(goals, userId);
    forall k | 0 <= k < |mine| ensures mine[k] in goals && mine[k].userId == userId {
      assert mine[k] in mine;
    }
  }

  /** `tx['date'].strftime('%Y-%m-%d') if tx['date'] else ''` on the ISO text of the date. */
  function DayText(when: Timestamp): string {
    if when == "" then "" else if |when| >= 10 then when[..10] else when
  }

  function IndexAccount(a: Account): Json {
    JsonIO.JObject(map["id" := JsonIO.JInt(a.id), "name" := JsonIO.JString(a.name), "amount" := JsonIO.JFloat(a.amount),
                        "account_type" := JsonIO.JString(a.accountType)])
  }

  function IndexTransaction(t: Transaction): Json {
    JsonIO.JObject(map["id" := JsonIO.JInt(t.id), "name" := JsonIO.JString(t.name), "amount" := JsonIO.JFloat(t.amount),
                        "transaction_type" := JsonIO.JString(t.transactionType),
                        "category" := JsonIO.JString(t.category), "date" := JsonIO.JString(DayText(t.date))])
  }

  function IndexGoal(g: Goal): Json {
    JsonIO.JObject(map["id" := JsonIO.JInt(g.id), "name" := JsonIO.JString(g.name),
                        "target_amount" := JsonIO.JFloat(g.targetAmount),
                        "current_amount" := JsonIO.JFloat(g.currentAmount)])
  }

  function IndexCategory(c: BudgetCategory): Json {
    JsonIO.JObject(map["id" := JsonIO.JInt(c.id), "name" := JsonIO.JString(c.name), "budget" := JsonIO.JFloat(c.budget),
                        "emoji" := JsonIO.JString(c.emoji)])
  }

  /** The four lists `index` serialises into the page, before `json.dumps`. */
  datatype IndexContext = IndexContext(accounts: seq<Json>, transactions: seq<Json>, goals: seq<Json>, categories: seq<Json>)

  function Index(db: Store, userId: int): IndexContext {
    var a, t, g, c := AccountsOf(db.accounts, userId), TransactionsOf(db.transactions, userId),
                      GoalsOf(db.goals, userId), CategoriesOf(db.categories, userId);
    IndexContext(seq(|a|, k requires 0 <= k < |a| => IndexAccount(a[k])),
                 seq(|t|, k requires 0 <= k < |t| => IndexTransaction(t[k])),
                 seq(|g|, k requires 0 <= k < |g| => IndexGoal(g[k])),
                 seq(|c|, k requires 0 <= k < |c| => IndexCategory(c[k])))
  }

  /**
   * The page gets one entry per record of the user, and its goals carry only
   * id, name and the two amounts: no `target`, no linked accounts and no
   * linked-only flag.
   */
  lemma IndexShape(db: Store, userId: int)
    ensures var ctx := Index(db, userId);
      |ctx.accounts| == |AccountsOf(db.accounts, userId)| && |ctx.transactions| == |TransactionsOf(db.transactions, userId)|
      && |ctx.goals| == |GoalsOf(db.goals, userId)| && |ctx.categories| == |CategoriesOf(db.categories, userId)|
      && forall k :: 0 <= k < |ctx.goals| ==>
           ctx.goals[k].JObject? && ctx.goals[k].fields.Keys == {"id", "name", "target_amount", "current_amount"}
  {
  }

  /** The date sent for a transaction is the day part of its ISO text. */
  lemma DayTextPrefix(when: Timestamp)
    ensures |DayText(when)| <= 10 && StartsWith(when, DayText(when))
  {
  }
}
