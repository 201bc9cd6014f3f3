/**
 * `main/admin.py`: the lockout actions of the profile admin, which fields
 * its forms leave read-only, the goal progress colour, and the mixin that
 * forbids deletion.
 */
module Admin {
  import opened Wrappers
  import opened Text
  import opened Models

  // ---------------------------------------------------------------------
  // The bulk actions. `queryset.update` writes the rows directly, so
  // `updated_at` is not touched.

  function BlockStep(s: Lockout, now: Timestamp): Lockout {
    s.(isBlocked := true, blockedAt := Some(now))
  }

  function UnblockStep(s: Lockout): Lockout {
    Lockout(0, false, None)
  }

  function ResetStep(s: Lockout): Lockout {
    s.(failedLoginAttempts := 0)
  }

  /** Every admin action keeps the lockout state coherent, and each does what its name says. */
  lemma ActionsPreserveCoherence(s: Lockout, now: Timestamp)
    requires Coherent(s)
    ensures Coherent(BlockStep(s, now)) && BlockStep(s, now).isBlocked
    ensures Coherent(UnblockStep(s)) && UnblockStep(s) == Unlocked
    ensures Coherent(ResetStep(s)) && ResetStep(s).failedLoginAttempts == 0 && ResetStep(s).isBlocked == s.isBlocked
  {
  }

  /** The selected profiles whose user is a superuser. */
  function Superusers(selection: set<UserProfile>): set<UserProfile> {
    set p | p in selection && p.user.isSuperuser
  }

  /** `queryset.exclude(user__is_superuser=True)`. */
  function NonSuperusers(selection: set<UserProfile>): set<UserProfile> {
    set p | p in selection && !p.user.isSuperuser
  }

  /** The selection splits into superusers and the rest. */
  lemma SelectionSplits(selection: set<UserProfile>)
    ensures |NonSuperusers(selection)| + |Superusers(selection)| == |selection|
  {
    assert NonSuperusers(selection) + Superusers(selection) == selection;
    assert NonSuperusers(selection) * Superusers(selection) == {};
  }

  const BlockedPrefix := "Заблокировано пользователей: "
  const SkippedPrefix := "; пропущено суперюзеров: "
  const UnblockedPrefix := "Разблокировано пользователей: "
  const ResetPrefix := "Сброшен счетчик попыток для пользователей: "

  /** `r` holds `updated` after the prefix and `skipped` after the second part. */
  predicate ReportsBoth(r: string, updated: int, skipped: int) {
    exists k :: |BlockedPrefix| <= k <= |r| - |SkippedPrefix|
      && ParseInt(r[|BlockedPrefix|..k]) == Some(updated) && r[k..k + |SkippedPrefix|] == SkippedPrefix
      && ParseInt(r[k + |SkippedPrefix|..]) == Some(skipped)
  }

  /** A prefix followed by `str(n)`: the number reads back after the prefix. */
  lemma PrefixedCount(p: string, n: int)
    ensures StartsWith(p + IntToString(n), p) && ParseInt((p + IntToString(n))[|p|..]) == Some(n)
  {
    var r := p + IntToString(n);
    assert r[..|p|] == p && r[|p|..] == IntToString(n);
    IntToStringRoundTrip(n);
  }

  lemma BothCounts(updated: int, skipped: int)
    ensures var r := BlockedPrefix + IntToString(updated) + (SkippedPrefix + IntToString(skipped));
      StartsWith(r, BlockedPrefix) && ReportsBoth(r, updated, skipped)
  {
    var head := BlockedPrefix + IntToString(updated);
    var tail := SkippedPrefix + IntToString(skipped);
    PrefixedCount(BlockedPrefix, updated);
    PrefixedCount(SkippedPrefix, skipped);
    var r := head + tail;
    var k := |head|;
    assert r[|BlockedPrefix|..k] == head[|BlockedPrefix|..];
    assert r[k..k + |SkippedPrefix|] == tail[..|SkippedPrefix|];
    assert r[k + |SkippedPrefix|..] == tail[|SkippedPrefix|..];
    assert r[..|BlockedPrefix|] == head[..|BlockedPrefix|];
    assert |BlockedPrefix| <= k <= |r| - |SkippedPrefix|;
  }

  /**
   * The message `block_users` reports: the number blocked, and the number
   * of superusers skipped only when there were any.
   */
  function BlockMessage(updated: int, skipped: int): (r: string)
    ensures StartsWith(r, BlockedPrefix)
    ensures skipped == 0 ==> ParseInt(r[|BlockedPrefix|..]) == Some(updated)
    ensures skipped != 0 ==> ReportsBoth(r, updated, skipped)
  {
    PrefixedCount(BlockedPrefix, updated);
    if skipped != 0 then
      BothCounts(updated, skipped);
      BlockedPrefix + IntToString(updated) + (SkippedPrefix + IntToString(skipped))
    else
      BlockedPrefix + IntToString(updated)
  }

  /** The message `unblock_users` reports: the number of profiles unblocked, read back from the text. */
  function UnblockMessage(updated: int): (r: string)
    ensures StartsWith(r, UnblockedPrefix) && ParseInt(r[|UnblockedPrefix|..]) == Some(updated)
  {
    PrefixedCount(UnblockedPrefix, updated);
    UnblockedPrefix + IntToString(updated)
  }

  /** The message `reset_login_attempts` reports: the number of counters cleared, read back from the text. */
  function ResetMessage(updated: int): (r: string)
    ensures StartsWith(r, ResetPrefix) && ParseInt(r[|ResetPrefix|..]) == Some(updated)
  {
    PrefixedCount(ResetPrefix, updated);
    ResetPrefix + IntToString(updated)
  }

  /**
   * `block_users`: every selected profile of a non-superuser is blocked at
   * `now`; superusers' profiles are left as they were and counted as skipped.
   */
  method BlockUsers(selection: set<UserProfile>, now: Timestamp) returns (updated: nat, skipped: nat)
    modifies selection
    ensures updated == |NonSuperusers(selection)| && skipped == |Superusers(selection)|
    ensures updated + skipped == |selection|
    ensures forall p :: p in NonSuperusers(selection) ==> p.Lock() == BlockStep(old(p.Lock()), now)
    ensures forall p :: p in Superusers(selection) ==> p.Lock() == old(p.Lock())
    ensures forall p :: p in selection ==>
      p.firstName == old(p.firstName) && p.lastName == old(p.lastName) && p.patronymic == old(p.patronymic)
      && p.createdAt == old(p.createdAt) && p.updatedAt == old(p.updatedAt)
  {
    var total := |selection|;
    var toBlock := NonSuperusers(selection);
    forall p | p in toBlock {
      p.isBlocked := true;
    }
    forall p | p in toBlock {
      p.blockedAt := Some(now);
    }
    updated := |toBlock|;
    SelectionSplits(selection);
    skipped := total - updated;
  }

  /** `unblock_users`: every selected profile is unblocked with its counter cleared. */
  method UnblockUsers(selection: set<UserProfile>) returns (updated: nat)
    modifies selection
    ensures updated == |selection|
    ensures forall p :: p in selection ==> p.Lock() == UnblockStep(old(p.Lock()))
    ensures forall p :: p in selection ==>
      p.firstName == old(p.firstName) && p.lastName == old(p.lastName) && p.patronymic == old(p.patronymic)
      && p.createdAt == old(p.createdAt) && p.updatedAt == old(p.updatedAt)
  {
    forall p | p in selection {
      p.isBlocked := false;
    }
    forall p | p in selection {
      p.blockedAt := None;
    }
    forall p | p in selection {
      p.failedLoginAttempts := 0;
    }
    updated := |selection|;
  }

  /** `reset_login_attempts`: only the counter of each selected profile changes. */
  method ResetLoginAttempts(selection: set<UserProfile>) returns (updated: nat)
    modifies selection
    ensures updated == |selection|
    ensures forall p :: p in selection ==> p.Lock() == ResetStep(old(p.Lock()))
    ensures forall p :: p in selection ==>
      p.firstName == old(p.firstName) && p.lastName == old(p.lastName) && p.patronymic == old(p.patronymic)
      && p.createdAt == old(p.createdAt) && p.updatedAt == old(p.updatedAt)
  {
    forall p | p in selection {
      p.failedLoginAttempts := 0;
    }
    updated := |selection|;
  }

  // ---------------------------------------------------------------------
  // Read-only fields

  const ProfileReadonlyFields: seq<string> := ["created_at", "updated_at", "user", "failed_login_attempts", "blocked_at"]
  const InlineReadonlyFields: seq<string> := ["failed_login_attempts", "blocked_at"]

  /** `UserProfileAdmin.get_readonly_fields`: `obj` is the profile being edited, absent on the add form. */
  function ProfileReadonly(obj: Option<UserProfile>): (ro: seq<string>)
    ensures |ro| >= |ProfileReadonlyFields| && ro[..|ProfileReadonlyFields|] == ProfileReadonlyFields
    ensures "is_blocked" in ro <==> obj.Some? && obj.value.user.isSuperuser
  {
    if obj.Some? && obj.value.user.isSuperuser then ProfileReadonlyFields + ["is_blocked"] else ProfileReadonlyFields
  }

  /** `UserProfileInline.get_readonly_fields`: `obj` is the parent user. */
  function InlineReadonly(obj: Option<User>): (ro: seq<string>)
    ensures |ro| >= |InlineReadonlyFields| && ro[..|InlineReadonlyFields|] == InlineReadonlyFields
    ensures "is_blocked" in ro <==> obj.Some? && obj.value.isSuperuser
  {
    if obj.Some? && obj.value.isSuperuser then InlineReadonlyFields + ["is_blocked"] else InlineReadonlyFields
  }

  /** Both forms agree on whether a profile's block flag can be edited. */
  lemma ReadonlyAgree(p: UserProfile)
    ensures ("is_blocked" in ProfileReadonly(Some(p))) == ("is_blocked" in InlineReadonly(Some(p.user)))
  {
  }

  // ---------------------------------------------------------------------
  // GoalAdmin.get_progress_display

  function ProgressColor(percent: int): (color: string)
    ensures color == "green" <==> percent >= 100
    ensures color == "orange" <==> 50 <= percent < 100
    ensures color == "red" <==> percent < 50
  {
    if percent >= 100 then "green" else if percent >= 50 then "orange" else "red"
  }

  function ProgressDisplay(percent: int): string {
    "<span style=\"color: " + ProgressColor(percent) + "; font-weight: bold;\">" + IntToString(percent) + "%</span>"
  }

  /** A goal with a positive target shows green exactly when its calculated amount reaches the target. */
  lemma GoalShowsGreen(g: Goal, transactions: seq<Transaction>, accounts: seq<Account>)
    requires g.targetAmount > 0
    ensures var total := CalculatedAmount(g, transactions, accounts);
      ProgressColor(ProgressPercent(total, g.targetAmount)) == "green" <==> total >= g.targetAmount
  {
    var total := CalculatedAmount(g, transactions, accounts);
    if total > 0 {
      ProgressIsTruncation(total, g.targetAmount);
    }
  }

  // ---------------------------------------------------------------------
  // ReadOnlyAdminMixin, used by the account, transaction, goal and budget
  // category admins.

  /** `get_actions`: the inherited actions without the bulk delete. */
  function ReadOnlyActions(actions: map<string, string>): (r: map<string, string>)
    ensures "delete_selected" !in r
    ensures forall name :: name in actions && name != "delete_selected" ==> name in r && r[name] == actions[name]
    ensures forall name :: name in r ==> name in actions
  {
    actions - {"delete_selected"}
  }
}
