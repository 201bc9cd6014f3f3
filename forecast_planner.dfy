/**
 * The page's own list of budget categories (`categories` in
 * forecast/static/forecast/script.js) and the handlers that change it in
 * place: the edit button, the add button, the save and delete requests,
 * and the defaults filled in when the list is empty. The server's reply
 * to a request is a parameter.
 */
module ForecastPlanner {
  import opened Wrappers
  import opened ForecastMonth

  /**
   * The JavaScript array: an assignment past its end leaves holes, which
   * `forEach` skips and `findIndex` visits as `undefined`.
   */
  type Slots = seq<Option<Category>>

  /** The list and the `editingIndex` kept on the save button. */
  datatype Page = Page(slots: Slots, editing: Option<nat>)

  /** What the save request comes back with: the stored category, a refusal, or a failed request. */
  datatype SaveReply = Saved(category: Category) | Refused(error: string) | SaveFailed

  /** What the delete request comes back with. */
  datatype DeleteReply = Deleted | NotDeleted(error: string) | DeleteFailed

  /** What the user is told. */
  datatype Notice = Quiet | FillAllFields | ServerError(error: string) | RequestFailed | CannotDelete

  /** The categories shown, holes skipped, in order. */
  function Present(slots: Slots): (cs: seq<Category>)
    ensures |cs| <= |slots|
    ensures forall c :: c in cs <==> Some(c) in slots
  {
    if slots == [] then []
    else
      var rest := Present(slots[..|slots| - 1]);
      assert forall x :: x in slots <==> x in slots[..|slots| - 1] || x == slots[|slots| - 1];
      match slots[|slots| - 1]
      case Some(c) => rest + [c]
      case None => rest
  }

  /** `categories[i] = c`: past the end the array grows to `i + 1` with holes in between. */
  function Assign(slots: Slots, i: nat, c: Category): (r: Slots)
    ensures |r| == (if i < |slots| then |slots| else i + 1)
    ensures r[i] == Some(c)
    ensures forall j :: 0 <= j < |r| && j != i ==> r[j] == (if j < |slots| then slots[j] else None)
  {
    if i < |slots| then slots[i := Some(c)]
    else slots + seq(i - |slots|, _ => None) + [Some(c)]
  }

  /** The predicate of `findIndex`: same id (two absent ids count as the same) or same name. */
  predicate Matches(present: Category, saved: Category, name: string) {
    present.id == saved.id || present.name == name
  }

  datatype Found = Threw | At(index: nat) | Absent

  /** `categories.findIndex(...)`: the first match, or a `TypeError` at a hole met before any. */
  function FindSlot(slots: Slots, saved: Category, name: string): (r: Found)
    ensures r.At? ==> r.index < |slots| && slots[r.index].Some? && Matches(slots[r.index].value, saved, name)
    ensures r.At? || r.Absent? ==> forall j :: 0 <= j < |slots| && (r.At? ==> j < r.index) ==> slots[j].Some? && !Matches(slots[j].value, saved, name)
    ensures r == Threw ==> exists j :: 0 <= j < |slots| && slots[j].None?
  {
    if slots == [] then Absent
    else if slots[0].None? then Threw
    else if Matches(slots[0].value, saved, name) then At(0)
    else
      match FindSlot(slots[1..], saved, name)
      case Threw => Threw
      case At(i) => At(i + 1)
      case Absent => Absent
  }

  /** `name && budget >= 0`, where a budget that does not parse is `NaN`. */
  predicate AcceptedInput(name: string, budget: Option<real>) {
    name != "" && budget.Some? && budget.value >= 0.0
  }

  /** The save handler, from the check of the fields to the update of the list. */
  function AfterSave(p: Page, name: string, budget: Option<real>, reply: SaveReply): (Page, Notice) {
    if !AcceptedInput(name, budget) then (p, FillAllFields)
    else
      match reply
      case Refused(e) => (p, ServerError(e))
      case SaveFailed => (p, RequestFailed)
      case Saved(c) =>
        if p.editing.Some? then (Page(Assign(p.slots, p.editing.value, c), None), Quiet)
        else
          match FindSlot(p.slots, c, name)
          case Threw => (p, RequestFailed)
          case At(i) => (Page(p.slots[i := Some(c)], None), Quiet)
          case Absent => (Page(p.slots + [Some(c)], None), Quiet)
  }

  /**
   * The delete handler: only a confirmed delete of a stored category that
   * the server accepts removes it. The `renderCategories` that follows the
   * splice refills a list left empty. The page's own categories
   * (`window.forecastData.categories`) are then empty too: every assignment
   * to `categories` either takes that very array (script.js:173, 325, 411)
   * or happens when it is empty, and the handlers change `categories` only
   * in place, so the splice empties both and the defaults come back.
   */
  function AfterDelete(p: Page, index: int, confirmed: bool, reply: DeleteReply): (Page, Notice) {
    if !confirmed then (p, Quiet)
    else if !(0 <= index < |p.slots|) || p.slots[index].None? || p.slots[index].value.id in {None, Some(0)} then (p, CannotDelete)
    else
      match reply
      case Deleted => (p.(slots := Filled(p.slots[..index] + p.slots[index + 1..], [])), Quiet)
      case NotDeleted(e) => (p, ServerError(e))
      case DeleteFailed => (p, RequestFailed)
  }

  /** The edit button: remembers the index when it holds a category. */
  function AfterEdit(p: Page, index: int): Page {
    if 0 <= index < |p.slots| && p.slots[index].Some? then p.(editing := Some(index)) else p
  }

  /** The add button as written: it leaves `editingIndex` as it was. */
  function AddOpenedAsWritten(editing: Option<nat>): Option<nat> { editing }

  /** The add button as evidently intended: a new category is not an edit. */
  function AddOpened(editing: Option<nat>): (e: Option<nat>)
    ensures e.None?
  {
    None
  }

  /**
   * `renderCategories` on an empty list: the page's categories when it has
   * some, otherwise the defaults. `pageCategories` is
   * `window.forecastData.categories` at the time of the call; since the
   * handlers change `categories` in place, it is empty whenever an edit has
   * emptied the list, as `AfterDelete` uses.
   */
  function Filled(slots: Slots, pageCategories: seq<Category>): Slots {
    if |slots| != 0 then slots
    else
      var cs := if |pageCategories| > 0 then pageCategories else DefaultCategories();
      seq(|cs|, i requires 0 <= i < |cs| => Some(cs[i]))
  }

  class Planner {
    var slots: Slots
    var editing: Option<nat>

    constructor(initial: seq<Category>)
      ensures slots == seq(|initial|, i requires 0 <= i < |initial| => Some(initial[i])) && editing == None
    {
      slots := seq(|initial|, i requires 0 <= i < |initial| => Some(initial[i]));
      editing := None;
    }

    method Edit(index: int)
      modifies this
      ensures Page(slots, editing) == AfterEdit(Page(old(slots), old(editing)), index)
    {
      if 0 <= index < |slots| && slots[index].Some? {
        editing := Some(index);
      }
    }

    /** The add button: it fills the dialog's choices and opens it, leaving `editingIndex` as it was. */
    method OpenAdd()
      modifies this
      ensures slots == old(slots) && editing == AddOpenedAsWritten(old(editing))
    {
      editing := AddOpenedAsWritten(editing);
    }

    method SaveCategory(name: string, budget: Option<real>, reply: SaveReply) returns (notice: Notice)
      modifies this
      ensures (Page(slots, editing), notice) == AfterSave(Page(old(slots), old(editing)), name, budget, reply)
    {
      if !(name != "" && budget.Some? && budget.value >= 0.0) {
        return FillAllFields;
      }
      match reply
      case Refused(e) => notice := ServerError(e);
      case SaveFailed => notice := RequestFailed;
      case Saved(c) =>
        if editing.Some? {
          slots := Assign(slots, editing.value, c);
        } else {
          var found := FindSlot(slots, c, name);
          match found
          case Threw => return RequestFailed;
          case At(i) => slots := slots[i := Some(c)];
          case Absent => slots := slots + [Some(c)];
        }
        editing := None;
        notice := Quiet;
    }

    method DeleteCategory(index: int, confirmed: bool, reply: DeleteReply) returns (notice: Notice)
      modifies this
      ensures (Page(slots, editing), notice) == AfterDelete(Page(old(slots), old(editing)), index, confirmed, reply)
    {
      if !confirmed {
        return Quiet;
      }
      if !(0 <= index < |slots|) || slots[index].None? || slots[index].value.id == None || slots[index].value.id == Some(0) {
        return CannotDelete;
      }
      match reply
      case Deleted =>
        slots := slots[..index] + slots[index + 1..];
        if |slots| == 0 {
          var cs := DefaultCategories();
          slots := seq(|cs|, i requires 0 <= i < |cs| => Some(cs[i]));
        }
        notice := Quiet;
      case NotDeleted(e) => notice := ServerError(e);
      case DeleteFailed => notice := RequestFailed;
    }

    method FillIfEmpty(pageCategories: seq<Category>)
      modifies this
      ensures slots == Filled(old(slots), pageCategories) && editing == old(editing)
    {
      if |slots| == 0 {
        var cs := if |pageCategories| > 0 then pageCategories else DefaultCategories();
        slots := seq(|cs|, i requires 0 <= i < |cs| => Some(cs[i]));
      }
    }
  }

  // ---------------------------------------------------------------------
  // What the handlers promise

  /**
   * A save that is refused, fails, or has fields that do not pass changes
   * nothing; fields that do not pass are reported before any request.
   */
  lemma SaveWithoutEffect(p: Page, name: string, budget: Option<real>, reply: SaveReply)
    requires !AcceptedInput(name, budget) || !reply.Saved?
    ensures AfterSave(p, name, budget, reply).0 == p
    ensures !AcceptedInput(name, budget) ==> AfterSave(p, name, budget, reply).1 == FillAllFields
  {
  }

  /**
   * While editing, a stored category lands at the editing index and every
   * other entry keeps its place; the edit then ends.
   */
  lemma SaveWhileEditing(p: Page, name: string, budget: Option<real>, c: Category)
    requires AcceptedInput(name, budget) && p.editing.Some? && p.editing.value < |p.slots|
    ensures var (q, n) := AfterSave(p, name, budget, Saved(c));
      n == Quiet && q.editing.None? && |q.slots| == |p.slots| && q.slots[p.editing.value] == Some(c)
      && forall j :: 0 <= j < |p.slots| && j != p.editing.value ==> q.slots[j] == p.slots[j]
  {
  }

  /**
   * Without an edit under way, on a list without holes, the stored category
   * replaces the first entry with its id or name, or is appended when there
   * is none; nothing else changes.
   */
  lemma SaveUpserts(p: Page, name: string, budget: Option<real>, c: Category)
    requires AcceptedInput(name, budget) && p.editing.None?
    requires forall j :: 0 <= j < |p.slots| ==> p.slots[j].Some?
    ensures var (q, n) := AfterSave(p, name, budget, Saved(c));
      n == Quiet && q.editing.None? && Some(c) in q.slots
      && (if exists j :: 0 <= j < |p.slots| && Matches(p.slots[j].value, c, name) then
            |q.slots| == |p.slots|
            && exists i :: (0 <= i < |p.slots| && Matches(p.slots[i].value, c, name)
              && (forall j :: 0 <= j < i ==> !Matches(p.slots[j].value, c, name))
              && q.slots == p.slots[i := Some(c)])
          else q.slots == p.slots + [Some(c)])
  {
    var r := FindSlot(p.slots, c, name);
    if r.At? {
      assert AfterSave(p, name, budget, Saved(c)).0.slots == p.slots[r.index := Some(c)];
      assert p.slots[r.index := Some(c)][r.index] == Some(c);
    } else {
      assert r.Absent?;
      assert (p.slots + [Some(c)])[|p.slots|] == Some(c);
    }
  }

  /** A hole met before any match makes `findIndex` throw: the request went through, the list is not updated. */
  lemma HoleStopsSave(p: Page, name: string, budget: Option<real>, c: Category, h: nat)
    requires AcceptedInput(name, budget) && p.editing.None?
    requires h < |p.slots| && p.slots[h].None?
    requires forall j :: 0 <= j < h ==> p.slots[j].Some? && !Matches(p.slots[j].value, c, name)
    ensures AfterSave(p, name, budget, Saved(c)) == (p, RequestFailed)
  {
    HoleFirst(p.slots, c, name, h);
  }

  lemma {:induction false} HoleFirst(slots: Slots, c: Category, name: string, h: nat)
    requires h < |slots| && slots[h].None?
    requires forall j :: 0 <= j < h ==> slots[j].Some? && !Matches(slots[j].value, c, name)
    ensures FindSlot(slots, c, name) == Threw
    decreases h
  {
    if h > 0 {
      HoleFirst(slots[1..], c, name, h - 1);
    }
  }

  /**
   * A delete changes the list only when confirmed, stored and accepted.
   * It then removes exactly the entry at its index, unless that entry was
   * the last one: the list shows the seven default categories instead.
   */
  lemma DeleteRemovesOne(p: Page, index: int, confirmed: bool, reply: DeleteReply)
    ensures var (q, n) := AfterDelete(p, index, confirmed, reply);
      q.editing == p.editing
      && (q.slots != p.slots <==> (confirmed && 0 <= index < |p.slots| && p.slots[index].Some?
            && p.slots[index].value.id !in {None, Some(0)} && reply == Deleted))
      && (q.slots != p.slots && |p.slots| > 1 ==> (|q.slots| == |p.slots| - 1
            && (forall j :: 0 <= j < index ==> q.slots[j] == p.slots[j])
            && (forall j :: index <= j < |q.slots| ==> q.slots[j] == p.slots[j + 1])))
      && (q.slots != p.slots && |p.slots| == 1 ==> Present(q.slots) == DefaultCategories())
  {
    var (q, n) := AfterDelete(p, index, confirmed, reply);
    if confirmed && 0 <= index < |p.slots| && p.slots[index].Some? && p.slots[index].value.id !in {None, Some(0)} && reply == Deleted {
      var rest := p.slots[..index] + p.slots[index + 1..];
      assert |rest| == |p.slots| - 1;
      FilledShape(rest, []);
      if |p.slots| == 1 {
        assert |q.slots| == |DefaultCategories()| == 7;
      } else {
        assert q.slots == rest;
      }
    }
  }

  /** Filling leaves a list with entries alone, and an empty one gets the page's categories or the seven defaults. */
  lemma FilledShape(slots: Slots, pageCategories: seq<Category>)
    ensures |slots| != 0 ==> Filled(slots, pageCategories) == slots
    ensures |slots| == 0 && |pageCategories| > 0 ==> Present(Filled(slots, pageCategories)) == pageCategories
    ensures |slots| == 0 && |pageCategories| == 0 ==> Present(Filled(slots, pageCategories)) == DefaultCategories()
  {
    if |slots| == 0 {
      var cs := if |pageCategories| > 0 then pageCategories else DefaultCategories();
      PresentOfAll(cs);
    }
  }

  lemma {:induction false} PresentOfAll(cs: seq<Category>)
    ensures Present(seq(|cs|, i requires 0 <= i < |cs| => Some(cs[i]))) == cs
    decreases |cs|
  {
    if cs != [] {
      var n := |cs| - 1;
      var all := seq(|cs|, i requires 0 <= i < |cs| => Some(cs[i]));
      assert all[..n] == seq(n, i requires 0 <= i < n => Some(cs[..n][i]));
      PresentOfAll(cs[..n]);
      assert cs[..n] + [cs[n]] == cs;
    }
  }

  // ---------------------------------------------------------------------
  // The stale editing index

  /**
   * Editing the first category, closing the dialog without saving, then
   * adding another category overwrites the first one in the list: the
   * add button leaves the old editing index in place.
   */
  lemma StaleIndexOverwrites()
    ensures var a, b := Category(Some(1), "еда", 500.0, "🍔"), Category(Some(2), "транспорт", 300.0, "🚌");
      var shown := AfterEdit(Page([Some(a)], None), 0);
      var adding := shown.(editing := AddOpenedAsWritten(shown.editing));
      AfterSave(adding, "транспорт", Some(300.0), Saved(b)).0.slots == [Some(b)]
  {
  }

  /**
   * With the add button clearing the index, adding a category to a list
   * without holes never loses an entry with another id and another name.
   */
  lemma AddKeepsOthers(p: Page, name: string, budget: Option<real>, c: Category)
    requires forall j :: 0 <= j < |p.slots| ==> p.slots[j].Some?
    ensures var adding := p.(editing := AddOpened(p.editing));
      var q := AfterSave(adding, name, budget, Saved(c)).0;
      forall j :: 0 <= j < |p.slots| && !Matches(p.slots[j].value, c, name) ==> p.slots[j] in q.slots
  {
    var adding := p.(editing := AddOpened(p.editing));
    if AcceptedInput(name, budget) {
      SaveUpserts(adding, name, budget, c);
      var q := AfterSave(adding, name, budget, Saved(c)).0;
      forall j | 0 <= j < |p.slots| && !Matches(p.slots[j].value, c, name) ensures p.slots[j] in q.slots {
        if |q.slots| == |p.slots| {
          assert q.slots[j] == p.slots[j];
        } else {
          assert q.slots[j] == p.slots[j];
        }
      }
    }
  }
}
