/**
 * `main/backup_utils.py`: SQL string quoting, the INSERT statement of each
 * table and the order of the statements in a full and a per-user backup.
 * Timestamps are their `isoformat()` text. Every VALUES list is shown to
 * read back to the record it was written from.
 */
module Backup {
  import opened Wrappers
  import opened Text
  import opened Models

  // ---------------------------------------------------------------------
  // escape_sql_string

  /** `s.replace("'", "''")`. */
  function DoubleQuotes(s: string): string
    decreases |s|
  {
    if s == [] then [] else (if s[0] == '\'' then "''" else [s[0]]) + DoubleQuotes(s[1..])
  }

  /** `escape_sql_string(value)`: NULL, or the text quoted with its quotes doubled. */
  function EscapeSqlString(value: Option<string>): string {
    if value.None? then "NULL" else "'" + DoubleQuotes(value.value) + "'"
  }

  /**
   * How an SQL reader takes the rest of a quoted literal after its opening
   * quote: `''` stands for one quote, a single quote closes it. Gives the
   * text and what follows the closing quote.
   */
  function ReadQuoted(s: string): (r: Option<(string, string)>)
    ensures r.Some? ==> |r.value.1| < |s|
    decreases |s|
  {
    if s == [] then None
    else if s[0] == '\'' then
      if |s| >= 2 && s[1] == '\'' then
        match ReadQuoted(s[2..])
        case None => None
        case Some((text, rest)) => Some(("'" + text, rest))
      else Some(("", s[1..]))
    else
      match ReadQuoted(s[1..])
      case None => None
      case Some((text, rest)) => Some(([s[0]] + text, rest))
  }

  /** A literal's body, read back, stops at its closing quote and gives the original text. */
  lemma {:induction false} ReadQuotedDoubled(s: string, tail: string)
    requires tail == [] || tail[0] != '\''
    ensures ReadQuoted(DoubleQuotes(s) + "'" + tail) == Some((s, tail))
    decreases |s|
  {
    if s == [] {
      assert DoubleQuotes(s) + "'" + tail == "'" + tail;
    } else {
      var head := if s[0] == '\'' then "''" else [s[0]];
      assert DoubleQuotes(s) + "'" + tail == head + (DoubleQuotes(s[1..]) + "'" + tail);
      ReadQuotedDoubled(s[1..], tail);
      if s[0] == '\'' {
        assert (head + (DoubleQuotes(s[1..]) + "'" + tail))[2..] == DoubleQuotes(s[1..]) + "'" + tail;
      } else {
        assert (head + (DoubleQuotes(s[1..]) + "'" + tail))[1..] == DoubleQuotes(s[1..]) + "'" + tail;
      }
      assert [s[0]] + s[1..] == s;
    }
  }

  /** Reads back one `escape_sql_string` result: the unquoted text, or `None` for NULL. */
  function UnescapeSqlString(literal: string): Option<Option<string>> {
    if literal == "NULL" then Some(None)
    else if literal != [] && literal[0] == '\'' then
      match ReadQuoted(literal[1..])
      case Some((text, rest)) => if rest == [] then Some(Some(text)) else None
      case None => None
    else None
  }

  /** Quoting round-trips: reading the literal back gives the value. */
  lemma EscapeRoundTrip(value: Option<string>)
    ensures UnescapeSqlString(EscapeSqlString(value)) == Some(value)
  {
    if value.Some? {
      ReadQuotedDoubled(value.value, "");
      assert EscapeSqlString(value)[1..] == DoubleQuotes(value.value) + "'" + "";
    }
  }

  // ---------------------------------------------------------------------
  // The values of an INSERT statement

  /** One value: NULL, a quoted literal, or bare text (`str()` of a number or a 0/1 flag). */
  datatype SqlValue = Null | Literal(text: string) | Bare(text: string)

  predicate IsBareChar(c: char) {
    IsDigit(c) || c == '-' || c == '.'
  }

  predicate WellFormed(v: SqlValue) {
    v.Bare? ==> |v.text| >= 1 && forall k :: 0 <= k < |v.text| ==> IsBareChar(v.text[k])
  }

  /** `escape_sql_string` of an optional text, as a value. */
  function Quoted(value: Option<string>): SqlValue {
    if value.None? then Null else Literal(value.value)
  }

  function Render(v: SqlValue): string {
    match v
    case Null => "NULL"
    case Literal(text) => EscapeSqlString(Some(text))
    case Bare(text) => text
  }

  lemma RenderQuoted(value: Option<string>)
    ensures Render(Quoted(value)) == EscapeSqlString(value)
  {
  }

  function RenderAll(vs: seq<SqlValue>): seq<string> {
    seq(|vs|, i requires 0 <= i < |vs| => Render(vs[i]))
  }

  /** The longest prefix of bare characters and what follows it. */
  function ReadBare(s: string): (r: (string, string))
    ensures r.0 + r.1 == s
    ensures forall k :: 0 <= k < |r.0| ==> IsBareChar(r.0[k])
    decreases |s|
  {
    if s != [] && IsBareChar(s[0]) then
      var (run, rest) := ReadBare(s[1..]);
      ([s[0]] + run, rest)
    else ([], s)
  }

  lemma {:induction false} ReadBareRun(run: string, tail: string)
    requires forall k :: 0 <= k < |run| ==> IsBareChar(run[k])
    requires tail == [] || !IsBareChar(tail[0])
    ensures ReadBare(run + tail) == (run, tail)
    decreases |run|
  {
    if run != [] {
      assert (run + tail)[1..] == run[1..] + tail;
      ReadBareRun(run[1..], tail);
      assert [run[0]] + run[1..] == run;
    } else {
      assert run + tail == tail;
    }
  }

  /** Reads one value and gives what follows it. */
  function ReadValue(s: string): (r: Option<(SqlValue, string)>)
    ensures r.Some? ==> |r.value.1| < |s|
  {
    if StartsWith(s, "NULL") then Some((Null, s[4..]))
    else if s != [] && s[0] == '\'' then
      match ReadQuoted(s[1..])
      case None => None
      case Some((text, rest)) => Some((Literal(text), rest))
    else
      var (run, rest) := ReadBare(s);
      if run == [] then None else Some((Bare(run), rest))
  }

  /** Reads a VALUES list: values separated by `", "`. */
  function ReadValues(s: string): Option<seq<SqlValue>>
    decreases |s|
  {
    match ReadValue(s)
    case None => None
    case Some((v, rest)) =>
      if rest == [] then Some([v])
      else if StartsWith(rest, ", ") then
        match ReadValues(rest[2..])
        case None => None
        case Some(vs) => Some([v] + vs)
      else None
  }

  lemma ReadValueRendered(v: SqlValue, tail: string)
    requires WellFormed(v)
    requires tail == [] || tail[0] == ','
    ensures ReadValue(Render(v) + tail) == Some((v, tail))
  {
    match v
    case Null => ReadNullRendered(tail);
    case Literal(text) => ReadLiteralRendered(text, tail);
    case Bare(text) => ReadBareRendered(text, tail);
  }

  lemma ReadNullRendered(tail: string)
    ensures ReadValue("NULL" + tail) == Some((Null, tail))
  {
    assert ("NULL" + tail)[..4] == "NULL";
    assert ("NULL" + tail)[4..] == tail;
  }

  lemma ReadLiteralRendered(text: string, tail: string)
    requires tail == [] || tail[0] == ','
    ensures ReadValue(Render(Literal(text)) + tail) == Some((Literal(text), tail))
  {
    var s := Render(Literal(text)) + tail;
    assert s[0] == '\'';
    assert !StartsWith(s, "NULL") by {
      if |s| >= 4 {
        assert s[..4][0] == '\'';
      }
    }
    assert s[1..] == DoubleQuotes(text) + "'" + tail;
    ReadQuotedDoubled(text, tail);
  }

  lemma ReadBareRendered(text: string, tail: string)
    requires WellFormed(Bare(text))
    requires tail == [] || tail[0] == ','
    ensures ReadValue(text + tail) == Some((Bare(text), tail))
  {
    var s := text + tail;
    assert s[0] == text[0] && IsBareChar(s[0]);
    assert !StartsWith(s, "NULL") by {
      if |s| >= 4 {
        assert s[..4][0] == s[0];
      }
    }
    ReadBareRun(text, tail);
  }

  /** Every VALUES list of well-formed values reads back to those values. */
  lemma {:induction false} ReadValuesRoundTrip(vs: seq<SqlValue>)
    requires |vs| >= 1 && forall i :: 0 <= i < |vs| ==> WellFormed(vs[i])
    ensures ReadValues(Join(", ", RenderAll(vs))) == Some(vs)
    decreases |vs|
  {
    if |vs| == 1 {
      ReadValueRendered(vs[0], "");
      assert Join(", ", RenderAll(vs)) == Render(vs[0]) + "";
      assert vs == [vs[0]];
    } else {
      var rest := Join(", ", RenderAll(vs[1..]));
      RenderAllCons(vs);
      ReadValueRendered(vs[0], ", " + rest);
      ReadValuesRoundTrip(vs[1..]);
      ReadValuesCons(vs[0], rest, vs[1..]);
      assert [vs[0]] + vs[1..] == vs;
    }
  }

  /** The rendered list of two or more values is the first value, a comma and the rest. */
  lemma RenderAllCons(vs: seq<SqlValue>)
    requires |vs| >= 2
    ensures Join(", ", RenderAll(vs)) == Render(vs[0]) + (", " + Join(", ", RenderAll(vs[1..])))
  {
    var parts := RenderAll(vs);
    assert parts[1..] == RenderAll(vs[1..]);
  }

  /** A value read in front of `", "` and a list that reads back make a longer list. */
  lemma ReadValuesCons(v: SqlValue, rest: string, vs: seq<SqlValue>)
    requires ReadValue(Render(v) + (", " + rest)) == Some((v, ", " + rest))
    requires ReadValues(rest) == Some(vs)
    ensures ReadValues(Render(v) + (", " + rest)) == Some([v] + vs)
  {
    assert (", " + rest)[2..] == rest;
    assert (", " + rest)[..2] == ", ";
  }

  // ---------------------------------------------------------------------
  // str() of the stored numbers

  /** `str(i)` of an id. */
  function IntValue(i: int): SqlValue {
    Bare(IntToString(i))
  }

  /** `'1' if b else '0'`. */
  function Flag(b: bool): SqlValue {
    Bare(if b then "1" else "0")
  }

  /** `str()` of a two-place Decimal: sign, whole roubles, a point and two digits. */
  function CentsText(c: Cents): string {
    var a: nat := if c < 0 then -c else c;
    (if c < 0 then "-" else "") + UnsignedCentsText(a)
  }

  function UnsignedCentsText(a: nat): string {
    var r := a % 100;
    NatToString(a / 100) + "." + [DigitChar(r / 10), DigitChar(r % 10)]
  }

  function CentsValue(c: Cents): SqlValue {
    Bare(CentsText(c))
  }

  /** Reads `digits.dd`. */
  function ParseUnsignedCents(s: string): Option<nat> {
    if |s| >= 4 && s[|s| - 3] == '.' && AllDigits(s[..|s| - 3]) && AllDigits(s[|s| - 2..])
    then Some(DigitsValue(s[..|s| - 3]) * 100 + DigitsValue(s[|s| - 2..]))
    else None
  }

  /** Reads the text `CentsText` writes. */
  function ParseCents(s: string): Option<Cents> {
    if s != [] && s[0] == '-' then
      match ParseUnsignedCents(s[1..])
      case Some(n) => Some(-(n as int))
      case None => None
    else
      match ParseUnsignedCents(s)
      case Some(n) => Some(n as int)
      case None => None
  }

  lemma TwoDigits(d1: nat, d2: nat)
    requires d1 < 10 && d2 < 10
    ensures AllDigits([DigitChar(d1), DigitChar(d2)]) && DigitsValue([DigitChar(d1), DigitChar(d2)]) == d1 * 10 + d2
  {
    var t := [DigitChar(d1), DigitChar(d2)];
    assert t[..1] == [DigitChar(d1)];
    assert t[..1][..0] == [];
    assert DigitsValue(t[..1]) == d1;
    assert DigitsValue(t) == DigitsValue(t[..1]) * 10 + DigitValue(t[1]);
  }

  lemma UnsignedCentsRoundTrip(a: nat)
    ensures ParseUnsignedCents(UnsignedCentsText(a)) == Some(a)
  {
    var q, r := a / 100, a % 100;
    var whole := NatToString(q);
    var frac := [DigitChar(r / 10), DigitChar(r % 10)];
    var s := whole + "." + frac;
    assert s == UnsignedCentsText(a);
    assert s[..|s| - 3] == whole;
    assert s[|s| - 3] == '.';
    assert s[|s| - 2..] == frac;
    NatToStringValue(q);
    TwoDigits(r / 10, r % 10);
    assert DigitsValue(frac) == r;
    assert q * 100 + r == a;
  }

  lemma UnsignedCentsChars(a: nat)
    ensures var t := UnsignedCentsText(a);
      |t| >= 4 && IsDigit(t[0]) && forall k :: 0 <= k < |t| ==> IsBareChar(t[k])
  {
    var t := UnsignedCentsText(a);
    var whole := NatToString(a / 100);
    var r := a % 100;
    var frac := [DigitChar(r / 10), DigitChar(r % 10)];
    assert t == whole + "." + frac;
    forall k | 0 <= k < |t| ensures IsBareChar(t[k]) {
      if k < |whole| {
        assert t[k] == whole[k];
      } else if k > |whole| {
        assert t[k] == frac[k - |whole| - 1];
      }
    }
    assert t[0] == whole[0];
  }

  /** Reading back the text of a Decimal gives its value. */
  lemma CentsRoundTrip(c: Cents)
    ensures WellFormed(CentsValue(c)) && ParseCents(CentsText(c)) == Some(c)
  {
    var a: nat := if c < 0 then -c else c;
    var body := UnsignedCentsText(a);
    UnsignedCentsRoundTrip(a);
    UnsignedCentsChars(a);
    var t := CentsText(c);
    if c < 0 {
      assert t == "-" + body;
      assert t[1..] == body;
      forall k | 0 <= k < |t| ensures IsBareChar(t[k]) {
        if k > 0 {
          assert t[k] == body[k - 1];
        }
      }
    } else {
      assert t == body;
    }
  }

  lemma IntRoundTrip(i: int)
    ensures WellFormed(IntValue(i)) && ParseInt(IntToString(i)) == Some(i)
  {
    IntToStringRoundTrip(i);
    var d := NatToString(if i < 0 then -i else i);
    assert forall k :: 0 <= k < |d| ==> IsBareChar(d[k]);
    if i < 0 {
      assert forall k :: 1 <= k < |IntToString(i)| ==> IntToString(i)[k] == d[k - 1];
    }
  }

  /** The readers take a rendered number back to itself. */
  lemma IntReads(i: int)
    ensures WellFormed(IntValue(i)) && AsInt(IntValue(i)) == Some(i)
  {
    IntRoundTrip(i);
  }

  lemma CentsReads(c: Cents)
    ensures WellFormed(CentsValue(c)) && AsCents(CentsValue(c)) == Some(c)
  {
    CentsRoundTrip(c);
  }
  lemma FlagReads(b: bool)
    ensures WellFormed(Flag(b)) && AsFlag(Flag(b)) == Some(b)
  {
  }



  // ---------------------------------------------------------------------
  // Reading values back

  function AsInt(v: SqlValue): Option<int> {
    if v.Bare? then ParseInt(v.text) else None
  }

  function AsCents(v: SqlValue): Option<Cents> {
    if v.Bare? then ParseCents(v.text) else None
  }

  function AsFlag(v: SqlValue): Option<bool> {
    if v == Bare("1") then Some(true) else if v == Bare("0") then Some(false) else None
  }

  function AsText(v: SqlValue): Option<string> {
    if v.Literal? then Some(v.text) else None
  }

  function AsOptionalText(v: SqlValue): Option<Option<string>> {
    if v.Null? then Some(None) else if v.Literal? then Some(Some(v.text)) else None
  }

  // ---------------------------------------------------------------------
  // The INSERT statements

  /** `INSERT INTO t (columns) VALUES (values);`, both lists joined with ", ". */
  function InsertSql(table: string, columns: seq<string>, values: seq<SqlValue>): string {
    "INSERT INTO " + table + " (" + Join(", ", columns) + ") VALUES (" + Join(", ", RenderAll(values)) + ");"
  }

  /** The VALUES text of a row, as it stands between the parentheses. */
  function ValuesText(values: seq<SqlValue>): string {
    Join(", ", RenderAll(values))
  }
  predicate AllWellFormed(vs: seq<SqlValue>) {
    forall i :: 0 <= i < |vs| ==> WellFormed(vs[i])
  }

  /** A non-empty list of well-formed values reads back from its VALUES text. */
  lemma ValuesRoundTrip(vs: seq<SqlValue>)
    requires |vs| >= 1 && AllWellFormed(vs)
    ensures ReadValues(ValuesText(vs)) == Some(vs)
  {
    ReadValuesRoundTrip(vs);
  }


  lemma InsertStartsWithInsert(table: string, columns: seq<string>, values: seq<SqlValue>)
    ensures StartsWith(InsertSql(table, columns, values), "INSERT")
  {
    assert InsertSql(table, columns, values)[..6] == "INSERT";
  }

  const UserColumns: seq<string> := ["id", "password", "last_login", "is_superuser", "username",
    "first_name", "last_name", "email", "is_staff", "is_active", "date_joined"]
  const ProfileColumns: seq<string> := ["id", "user_id", "first_name", "last_name", "patronymic", "created_at", "updated_at"]
  const AccountColumns: seq<string> := ["id", "user_id", "name", "amount", "account_type", "description",
    "created_at", "updated_at"]
  const TransactionColumns: seq<string> := ["id", "user_id", "name", "amount", "transaction_type", "category",
    "date", "account_id", "created_at", "updated_at"]
  const GoalColumns: seq<string> := ["id", "user_id", "name", "target_amount", "current_amount",
    "use_only_linked_accounts", "created_at", "updated_at"]
  const CategoryColumns: seq<string> := ["id", "user_id", "name", "budget", "emoji", "created_at", "updated_at"]

  /** `generate_user_insert_sql`. */
  function UserValues(u: User): seq<SqlValue> {
    [IntValue(u.id), Literal(u.password), Quoted(u.lastLogin), Flag(u.isSuperuser), Literal(u.username),
     Literal(u.firstName), Literal(u.lastName), Literal(u.email), Flag(u.isStaff), Flag(u.isActive),
     Literal(u.dateJoined)]
  }

  function UserInsertSql(u: User): string {
    InsertSql("auth_user", UserColumns, UserValues(u))
  }

  /** Restores a user from the values of its INSERT. */
  function DecodeUser(vs: seq<SqlValue>): Option<User> {
    if |vs| == |UserColumns| && AsInt(vs[0]).Some? && AsText(vs[1]).Some? && AsOptionalText(vs[2]).Some?
       && AsFlag(vs[3]).Some? && AsText(vs[4]).Some? && AsText(vs[5]).Some? && AsText(vs[6]).Some?
       && AsText(vs[7]).Some? && AsFlag(vs[8]).Some? && AsFlag(vs[9]).Some? && AsText(vs[10]).Some?
    then Some(User(AsInt(vs[0]).value, AsText(vs[1]).value, AsOptionalText(vs[2]).value, AsFlag(vs[3]).value,
                   AsText(vs[4]).value, AsText(vs[5]).value, AsText(vs[6]).value, AsText(vs[7]).value,
                   AsFlag(vs[8]).value, AsFlag(vs[9]).value, AsText(vs[10]).value))
    else None
  }

  /** A user's INSERT has one value per column, and its VALUES list reads back to the same user. */
  lemma UserRoundTrip(u: User)
    ensures |UserValues(u)| == |UserColumns|
    ensures ReadValues(ValuesText(UserValues(u))) == Some(UserValues(u))
    ensures DecodeUser(UserValues(u)) == Some(u)
  {
    UserWellFormed(u);
    ValuesRoundTrip(UserValues(u));
    UserDecodes(u);
  }

  lemma UserWellFormed(u: User)
    ensures AllWellFormed(UserValues(u))
  {
    var vs := UserValues(u);
    forall i | 0 <= i < |vs| ensures WellFormed(vs[i]) {
      if i == 0 {
        IntReads(u.id);
      } else if i == 3 {
        FlagReads(u.isSuperuser);
      } else if i == 8 {
        FlagReads(u.isStaff);
      } else if i == 9 {
        FlagReads(u.isActive);
      }
    }
  }

  lemma UserDecodes(u: User)
    ensures DecodeUser(UserValues(u)) == Some(u)
  {
    IntReads(u.id);
    FlagReads(u.isSuperuser);
    FlagReads(u.isStaff);
    FlagReads(u.isActive);
    UserFields(IntValue(u.id), Literal(u.password), Quoted(u.lastLogin), Flag(u.isSuperuser), Literal(u.username),
               Literal(u.firstName), Literal(u.lastName), Literal(u.email), Flag(u.isStaff), Flag(u.isActive),
               Literal(u.dateJoined), u);
  }

  /** The decoder collects the fields it is given. */
  lemma UserFields(v0: SqlValue, v1: SqlValue, v2: SqlValue, v3: SqlValue, v4: SqlValue, v5: SqlValue,
                   v6: SqlValue, v7: SqlValue, v8: SqlValue, v9: SqlValue, v10: SqlValue, u: User)
    requires AsInt(v0) == Some(u.id) && AsText(v1) == Some(u.password)
    requires AsOptionalText(v2) == Some(u.lastLogin) && AsFlag(v3) == Some(u.isSuperuser)
    requires AsText(v4) == Some(u.username) && AsText(v5) == Some(u.firstName)
    requires AsText(v6) == Some(u.lastName) && AsText(v7) == Some(u.email)
    requires AsFlag(v8) == Some(u.isStaff) && AsFlag(v9) == Some(u.isActive)
    requires AsText(v10) == Some(u.dateJoined)
    ensures DecodeUser([v0, v1, v2, v3, v4, v5, v6, v7, v8, v9, v10]) == Some(u)
  {
  }

  /** `generate_userprofile_insert_sql`. */
  function ProfileValues(p: UserProfile): seq<SqlValue>
    reads p
  {
    [IntValue(p.id), IntValue(p.user.id), Literal(p.firstName), Literal(p.lastName), Literal(p.patronymic),
     Literal(p.createdAt), Literal(p.updatedAt)]
  }

  function ProfileInsertSql(p: UserProfile): string
    reads p
  {
    InsertSql("main_userprofile", ProfileColumns, ProfileValues(p))
  }

  /** The columns of a profile row. */
  datatype ProfileRow = ProfileRow(id: int, userId: int, firstName: string, lastName: string, patronymic: string,
                                   createdAt: Timestamp, updatedAt: Timestamp)

  function DecodeProfile(vs: seq<SqlValue>): Option<ProfileRow> {
    if |vs| == |ProfileColumns| && AsInt(vs[0]).Some? && AsInt(vs[1]).Some? && AsText(vs[2]).Some?
       && AsText(vs[3]).Some? && AsText(vs[4]).Some? && AsText(vs[5]).Some? && AsText(vs[6]).Some?
    then Some(ProfileRow(AsInt(vs[0]).value, AsInt(vs[1]).value, AsText(vs[2]).value, AsText(vs[3]).value,
                         AsText(vs[4]).value, AsText(vs[5]).value, AsText(vs[6]).value))
    else None
  }

  /** A profile's VALUES list reads back to the profile's stored fields. */
  lemma ProfileRoundTrip(p: UserProfile)
    ensures |ProfileValues(p)| == |ProfileColumns|
    ensures ReadValues(ValuesText(ProfileValues(p))) == Some(ProfileValues(p))
    ensures DecodeProfile(ProfileValues(p))
      == Some(ProfileRow(p.id, p.user.id, p.firstName, p.lastName, p.patronymic, p.createdAt, p.updatedAt))
  {
    var vs := ProfileValues(p);
    forall i | 0 <= i < |vs| ensures WellFormed(vs[i]) {
      if i == 0 {
        IntReads(p.id);
      } else if i == 1 {
        IntReads(p.user.id);
      }
    }
    ValuesRoundTrip(vs);
    IntReads(p.id);
    IntReads(p.user.id);
    ProfileFields(IntValue(p.id), IntValue(p.user.id), Literal(p.firstName), Literal(p.lastName), Literal(p.patronymic),
                  Literal(p.createdAt), Literal(p.updatedAt),
                  ProfileRow(p.id, p.user.id, p.firstName, p.lastName, p.patronymic, p.createdAt, p.updatedAt));
  }

  /** The decoder collects the fields it is given. */
  lemma ProfileFields(v0: SqlValue, v1: SqlValue, v2: SqlValue, v3: SqlValue, v4: SqlValue, v5: SqlValue,
                      v6: SqlValue, row: ProfileRow)
    requires AsInt(v0) == Some(row.id) && AsInt(v1) == Some(row.userId) && AsText(v2) == Some(row.firstName)
    requires AsText(v3) == Some(row.lastName) && AsText(v4) == Some(row.patronymic)
    requires AsText(v5) == Some(row.createdAt) && AsText(v6) == Some(row.updatedAt)
    ensures DecodeProfile([v0, v1, v2, v3, v4, v5, v6]) == Some(row)
  {
  }

  /** `generate_account_insert_sql`. */
  function AccountValues(a: Account): seq<SqlValue> {
    [IntValue(a.id), IntValue(a.userId), Literal(a.name), CentsValue(a.amount), Literal(a.accountType),
     Literal(a.description), Literal(a.createdAt), Literal(a.updatedAt)]
  }

  function AccountInsertSql(a: Account): string {
    InsertSql("main_account", AccountColumns, AccountValues(a))
  }

  function DecodeAccount(vs: seq<SqlValue>): Option<Account> {
    if |vs| == |AccountColumns| && AsInt(vs[0]).Some? && AsInt(vs[1]).Some? && AsText(vs[2]).Some?
       && AsCents(vs[3]).Some? && AsText(vs[4]).Some? && AsText(vs[5]).Some? && AsText(vs[6]).Some?
       && AsText(vs[7]).Some?
    then Some(Account(AsInt(vs[0]).value, AsInt(vs[1]).value, AsText(vs[2]).value, AsCents(vs[3]).value,
                      AsText(vs[4]).value, AsText(vs[5]).value, AsText(vs[6]).value, AsText(vs[7]).value))
    else None
  }

  /** An account's VALUES list reads back to the same account. */
  lemma AccountRoundTrip(a: Account)
    ensures |AccountValues(a)| == |AccountColumns|
    ensures ReadValues(ValuesText(AccountValues(a))) == Some(AccountValues(a))
    ensures DecodeAccount(AccountValues(a)) == Some(a)
  {
    AccountWellFormed(a);
    ValuesRoundTrip(AccountValues(a));
    AccountDecodes(a);
  }

  lemma AccountWellFormed(a: Account)
    ensures AllWellFormed(AccountValues(a))
  {
    var vs := AccountValues(a);
    forall i | 0 <= i < |vs| ensures WellFormed(vs[i]) {
      if i == 0 {
        IntReads(a.id);
      } else if i == 1 {
        IntReads(a.userId);
      } else if i == 3 {
        CentsReads(a.amount);
      }
    }
  }

  lemma AccountDecodes(a: Account)
    ensures DecodeAccount(AccountValues(a)) == Some(a)
  {
    IntReads(a.id);
    IntReads(a.userId);
    CentsReads(a.amount);
    AccountFields(IntValue(a.id), IntValue(a.userId), Literal(a.name), CentsValue(a.amount), Literal(a.accountType),
                  Literal(a.description), Literal(a.createdAt), Literal(a.updatedAt), a);
  }

  /** The decoder collects the fields it is given. */
  lemma AccountFields(v0: SqlValue, v1: SqlValue, v2: SqlValue, v3: SqlValue, v4: SqlValue, v5: SqlValue,
                      v6: SqlValue, v7: SqlValue, a: Account)
    requires AsInt(v0) == Some(a.id) && AsInt(v1) == Some(a.userId) && AsText(v2) == Some(a.name)
    requires AsCents(v3) == Some(a.amount) && AsText(v4) == Some(a.accountType)
    requires AsText(v5) == Some(a.description) && AsText(v6) == Some(a.createdAt)
    requires AsText(v7) == Some(a.updatedAt)
    ensures DecodeAccount([v0, v1, v2, v3, v4, v5, v6, v7]) == Some(a)
  {
  }

  /** `str(transaction.account_id) if transaction.account_id else 'NULL'`: a zero id is falsy too. */
  function AccountIdValue(accountId: Option<int>): SqlValue {
    if accountId.Some? && accountId.value != 0 then IntValue(accountId.value) else Null
  }

  /** `generate_transaction_insert_sql`. */
  function TransactionValues(t: Transaction): seq<SqlValue> {
    [IntValue(t.id), IntValue(t.userId), Literal(t.name), CentsValue(t.amount), Literal(t.transactionType),
     Literal(t.category), Literal(t.date), AccountIdValue(t.accountId), Literal(t.createdAt), Literal(t.updatedAt)]
  }

  function TransactionInsertSql(t: Transaction): string {
    InsertSql("main_transaction", TransactionColumns, TransactionValues(t))
  }

  function DecodeTransaction(vs: seq<SqlValue>): Option<Transaction> {
    if |vs| == |TransactionColumns| && AsInt(vs[0]).Some? && AsInt(vs[1]).Some? && AsText(vs[2]).Some?
       && AsCents(vs[3]).Some? && AsText(vs[4]).Some? && AsText(vs[5]).Some? && AsText(vs[6]).Some?
       && (vs[7].Null? || AsInt(vs[7]).Some?) && AsText(vs[8]).Some? && AsText(vs[9]).Some?
    then Some(Transaction(AsInt(vs[0]).value, AsInt(vs[1]).value, AsText(vs[2]).value, AsCents(vs[3]).value,
                          AsText(vs[4]).value, AsText(vs[5]).value, AsText(vs[6]).value,
                          if vs[7].Null? then None else Some(AsInt(vs[7]).value),
                          AsText(vs[8]).value, AsText(vs[9]).value))
    else None
  }

  /**
   * A transaction's VALUES list reads back to the same transaction, except
   * that an account id of 0 is written as NULL and so comes back as none.
   */
  lemma TransactionRoundTrip(t: Transaction)
    ensures |TransactionValues(t)| == |TransactionColumns|
    ensures ReadValues(ValuesText(TransactionValues(t))) == Some(TransactionValues(t))
    ensures DecodeTransaction(TransactionValues(t))
      == Some(if t.accountId == Some(0) then t.(accountId := None) else t)
  {
    TransactionWellFormed(t);
    ValuesRoundTrip(TransactionValues(t));
    TransactionDecodes(t);
  }

  lemma TransactionWellFormed(t: Transaction)
    ensures AllWellFormed(TransactionValues(t))
  {
    var vs := TransactionValues(t);
    forall i | 0 <= i < |vs| ensures WellFormed(vs[i]) {
      if i == 0 {
        IntReads(t.id);
      } else if i == 1 {
        IntReads(t.userId);
      } else if i == 3 {
        CentsReads(t.amount);
      } else if i == 7 && t.accountId.Some? {
        IntReads(t.accountId.value);
      }
    }
  }

  lemma TransactionDecodes(t: Transaction)
    ensures DecodeTransaction(TransactionValues(t))
      == Some(if t.accountId == Some(0) then t.(accountId := None) else t)
  {
    var u := if t.accountId == Some(0) then t.(accountId := None) else t;
    IntReads(t.id);
    IntReads(t.userId);
    CentsReads(t.amount);
    if u.accountId.Some? {
      IntReads(u.accountId.value);
    }
    TransactionFields(IntValue(t.id), IntValue(t.userId), Literal(t.name), CentsValue(t.amount),
                      Literal(t.transactionType), Literal(t.category), Literal(t.date), AccountIdValue(t.accountId),
                      Literal(t.createdAt), Literal(t.updatedAt), u);
  }

  /** The decoder collects the fields it is given. */
  lemma TransactionFields(v0: SqlValue, v1: SqlValue, v2: SqlValue, v3: SqlValue, v4: SqlValue, v5: SqlValue,
                          v6: SqlValue, v7: SqlValue, v8: SqlValue, v9: SqlValue, t: Transaction)
    requires AsInt(v0) == Some(t.id) && AsInt(v1) == Some(t.userId) && AsText(v2) == Some(t.name)
    requires AsCents(v3) == Some(t.amount) && AsText(v4) == Some(t.transactionType)
    requires AsText(v5) == Some(t.category) && AsText(v6) == Some(t.date)
    requires if t.accountId.None? then v7.Null? else AsInt(v7) == Some(t.accountId.value)
    requires AsText(v8) == Some(t.createdAt) && AsText(v9) == Some(t.updatedAt)
    ensures DecodeTransaction([v0, v1, v2, v3, v4, v5, v6, v7, v8, v9]) == Some(t)
  {
    if t.accountId.Some? {
      assert !v7.Null?;
    }
  }

  /** `generate_goal_insert_sql`: the linked accounts are not part of the goal's row. */
  function GoalValues(g: Goal): seq<SqlValue> {
    [IntValue(g.id), IntValue(g.userId), Literal(g.name), CentsValue(g.targetAmount), CentsValue(g.currentAmount),
     Flag(g.useOnlyLinkedAccounts), Literal(g.createdAt), Literal(g.updatedAt)]
  }

  function GoalInsertSql(g: Goal): string {
    InsertSql("main_goal", GoalColumns, GoalValues(g))
  }

  function DecodeGoal(vs: seq<SqlValue>): Option<Goal> {
    if |vs| == |GoalColumns| && AsInt(vs[0]).Some? && AsInt(vs[1]).Some? && AsText(vs[2]).Some?
       && AsCents(vs[3]).Some? && AsCents(vs[4]).Some? && AsFlag(vs[5]).Some? && AsText(vs[6]).Some?
       && AsText(vs[7]).Some?
    then Some(Goal(AsInt(vs[0]).value, AsInt(vs[1]).value, AsText(vs[2]).value, AsCents(vs[3]).value,
                   AsCents(vs[4]).value, AsFlag(vs[5]).value, [], AsText(vs[6]).value, AsText(vs[7]).value))
    else None
  }

  /** A goal's VALUES list reads back to the same goal without its linked accounts. */
  lemma GoalRoundTrip(g: Goal)
    ensures |GoalValues(g)| == |GoalColumns|
    ensures ReadValues(ValuesText(GoalValues(g))) == Some(GoalValues(g))
    ensures DecodeGoal(GoalValues(g)) == Some(g.(linkedAccounts := []))
  {
    GoalWellFormed(g);
    ValuesRoundTrip(GoalValues(g));
    GoalDecodes(g);
  }

  lemma GoalWellFormed(g: Goal)
    ensures AllWellFormed(GoalValues(g))
  {
    var vs := GoalValues(g);
    forall i | 0 <= i < |vs| ensures WellFormed(vs[i]) {
      if i == 0 {
        IntReads(g.id);
      } else if i == 1 {
        IntReads(g.userId);
      } else if i == 3 {
        CentsReads(g.targetAmount);
      } else if i == 4 {
        CentsReads(g.currentAmount);
      } else if i == 5 {
        FlagReads(g.useOnlyLinkedAccounts);
      }
    }
  }

  lemma GoalDecodes(g: Goal)
    ensures DecodeGoal(GoalValues(g)) == Some(g.(linkedAccounts := []))
  {
    IntReads(g.id);
    IntReads(g.userId);
    CentsReads(g.targetAmount);
    CentsReads(g.currentAmount);
    FlagReads(g.useOnlyLinkedAccounts);
    GoalFields(IntValue(g.id), IntValue(g.userId), Literal(g.name), CentsValue(g.targetAmount), CentsValue(g.currentAmount),
               Flag(g.useOnlyLinkedAccounts), Literal(g.createdAt), Literal(g.updatedAt), g.(linkedAccounts := []));
  }

  /** The decoder collects the fields it is given and links no accounts. */
  lemma GoalFields(v0: SqlValue, v1: SqlValue, v2: SqlValue, v3: SqlValue, v4: SqlValue, v5: SqlValue,
                   v6: SqlValue, v7: SqlValue, g: Goal)
    requires g.linkedAccounts == []
    requires AsInt(v0) == Some(g.id) && AsInt(v1) == Some(g.userId) && AsText(v2) == Some(g.name)
    requires AsCents(v3) == Some(g.targetAmount) && AsCents(v4) == Some(g.currentAmount)
    requires AsFlag(v5) == Some(g.useOnlyLinkedAccounts)
    requires AsText(v6) == Some(g.createdAt) && AsText(v7) == Some(g.updatedAt)
    ensures DecodeGoal([v0, v1, v2, v3, v4, v5, v6, v7]) == Some(g)
  {
  }

  /** `generate_budgetcategory_insert_sql`. */
  function CategoryValues(c: BudgetCategory): seq<SqlValue> {
    [IntValue(c.id), IntValue(c.userId), Literal(c.name), CentsValue(c.budget), Literal(c.emoji),
     Literal(c.createdAt), Literal(c.updatedAt)]
  }

  function CategoryInsertSql(c: BudgetCategory): string {
    InsertSql("main_budgetcategory", CategoryColumns, CategoryValues(c))
  }

  function DecodeCategory(vs: seq<SqlValue>): Option<BudgetCategory> {
    if |vs| == |CategoryColumns| && AsInt(vs[0]).Some? && AsInt(vs[1]).Some? && AsText(vs[2]).Some?
       && AsCents(vs[3]).Some? && AsText(vs[4]).Some? && AsText(vs[5]).Some? && AsText(vs[6]).Some?
    then Some(BudgetCategory(AsInt(vs[0]).value, AsInt(vs[1]).value, AsText(vs[2]).value, AsCents(vs[3]).value,
                             AsText(vs[4]).value, AsText(vs[5]).value, AsText(vs[6]).value))
    else None
  }

  /** A budget category's VALUES list reads back to the same category. */
  lemma CategoryRoundTrip(c: BudgetCategory)
    ensures |CategoryValues(c)| == |CategoryColumns|
    ensures ReadValues(ValuesText(CategoryValues(c))) == Some(CategoryValues(c))
    ensures DecodeCategory(CategoryValues(c)) == Some(c)
  {
    CategoryWellFormed(c);
    ValuesRoundTrip(CategoryValues(c));
    CategoryDecodes(c);
  }

  lemma CategoryWellFormed(c: BudgetCategory)
    ensures AllWellFormed(CategoryValues(c))
  {
    var vs := CategoryValues(c);
    forall i | 0 <= i < |vs| ensures WellFormed(vs[i]) {
      if i == 0 {
        IntReads(c.id);
      } else if i == 1 {
        IntReads(c.userId);
      } else if i == 3 {
        CentsReads(c.budget);
      }
    }
  }

  lemma CategoryDecodes(c: BudgetCategory)
    ensures DecodeCategory(CategoryValues(c)) == Some(c)
  {
    IntReads(c.id);
    IntReads(c.userId);
    CentsReads(c.budget);
    CategoryFields(IntValue(c.id), IntValue(c.userId), Literal(c.name), CentsValue(c.budget), Literal(c.emoji),
                   Literal(c.createdAt), Literal(c.updatedAt), c);
  }

  /** The decoder collects the fields it is given. */
  lemma CategoryFields(v0: SqlValue, v1: SqlValue, v2: SqlValue, v3: SqlValue, v4: SqlValue, v5: SqlValue,
                       v6: SqlValue, c: BudgetCategory)
    requires AsInt(v0) == Some(c.id) && AsInt(v1) == Some(c.userId) && AsText(v2) == Some(c.name)
    requires AsCents(v3) == Some(c.budget) && AsText(v4) == Some(c.emoji)
    requires AsText(v5) == Some(c.createdAt) && AsText(v6) == Some(c.updatedAt)
    ensures DecodeCategory([v0, v1, v2, v3, v4, v5, v6]) == Some(c)
  {
  }

  // ---------------------------------------------------------------------
  // The statement order of a backup

  /** The section titles of the two backups. */
  datatype Title = AuthUserTable | ProfileTable | AccountTable | TransactionTable | GoalTable | CategoryTable | UserData | UserProfileData | UserAccounts | UserTransactions | UserGoals | UserCategories

  function TitleText(title: Title): string {
    match title
    case AuthUserTable => "===== AUTH_USER TABLE ====="
    case ProfileTable => "===== MAIN_USERPROFILE TABLE ====="
    case AccountTable => "===== MAIN_ACCOUNT TABLE ====="
    case TransactionTable => "===== MAIN_TRANSACTION TABLE ====="
    case GoalTable => "===== MAIN_GOAL TABLE ====="
    case CategoryTable => "===== MAIN_BUDGETCATEGORY TABLE ====="
    case UserData => "===== USER DATA ====="
    case UserProfileData => "===== USER PROFILE ====="
    case UserAccounts => "===== ACCOUNTS ====="
    case UserTransactions => "===== TRANSACTIONS ====="
    case UserGoals => "===== GOALS ====="
    case UserCategories => "===== BUDGET CATEGORIES ====="
  }

  /**
   * A line of the script: blank, a `-- ` comment, a `-- ` section title, the
   * transaction brackets or an INSERT.
   */
  datatype Line = Blank | Comment(text: string) | Heading(title: Title) | Begin | Commit | Insert(sql: string)

  function LineText(line: Line): string {
    match line
    case Blank => ""
    case Comment(text) => "-- " + text
    case Heading(title) => "-- " + TitleText(title)
    case Begin => "BEGIN TRANSACTION;"
    case Commit => "COMMIT;"
    case Insert(sql) => sql
  }

  /** `"\n".join(sql_lines)`. */
  function Script(lines: seq<Line>): string {
    Join("\n", seq(|lines|, i requires 0 <= i < |lines| => LineText(lines[i])))
  }

  /** One INSERT line per row, in order. */
  function Inserts<T>(rows: seq<T>, render: T -> string): (lines: seq<Line>)
    ensures |lines| == |rows|
    decreases |rows|
  {
    if rows == [] then [] else Inserts(rows[..|rows| - 1], render) + [Insert(render(rows[|rows| - 1]))]
  }

  /** The profile lines: one per user that has a profile; a user without one is passed over. */
  function ProfileInserts(users: seq<User>, profileOf: map<int, UserProfile>): (lines: seq<Line>)
    reads profileOf.Values
    ensures |lines| <= |users|
    decreases |users|
  {
    if users == [] then []
    else
      var u := users[|users| - 1];
      ProfileInserts(users[..|users| - 1], profileOf)
      + (if u.id in profileOf then [Insert(ProfileInsertSql(profileOf[u.id]))] else [])
  }

  /** The comment lines, then a blank line, `BEGIN TRANSACTION;` and another blank line. */
  function Opening(comments: seq<string>): seq<Line> {
    seq(|comments|, i requires 0 <= i < |comments| => Comment(comments[i])) + [Blank, Begin, Blank]
  }

  const Closing: seq<Line> := [Blank, Commit]

  function FullBackupComments(generatedAt: Timestamp): seq<string> {
    ["CtrlMoney Database Backup", "Generated: " + generatedAt, "This backup includes all data from the database"]
  }

  /** A section of the script: a blank line and a `-- ` title, then its lines. */
  function Section(title: Title, rows: seq<Line>): (lines: seq<Line>)
    ensures |lines| == |rows| + 2
  {
    [Blank, Heading(title)] + rows
  }

  /** The sections of the four data tables, in the order both backups write them. */
  function DataTables(accounts: seq<Account>, transactions: seq<Transaction>, goals: seq<Goal>,
                      categories: seq<BudgetCategory>, titles: (Title, Title, Title, Title)): seq<Line>
  {
    Section(titles.0, Inserts(accounts, AccountInsertSql))
    + Section(titles.1, Inserts(transactions, TransactionInsertSql))
    + Section(titles.2, Inserts(goals, GoalInsertSql))
    + Section(titles.3, Inserts(categories, CategoryInsertSql))
  }

  const FullTitles := (AccountTable, TransactionTable, GoalTable, CategoryTable)
  const UserTitles := (UserAccounts, UserTransactions, UserGoals, UserCategories)

  /** The lines of `generate_sql_backup_all`. */
  function FullBackupLines(users: seq<User>, profileOf: map<int, UserProfile>, db: Store, generatedAt: Timestamp): seq<Line>
    reads profileOf.Values
  {
    Opening(FullBackupComments(generatedAt))
    + ([Heading(AuthUserTable)] + Inserts(users, UserInsertSql))
    + Section(ProfileTable, ProfileInserts(users, profileOf))
    + DataTables(db.accounts, db.transactions, db.goals, db.categories, FullTitles)
    + Closing
  }

  function ByUserComments(user: User, generatedAt: Timestamp): seq<string> {
    ["CtrlMoney Database Backup - User Specific", "Generated: " + generatedAt, "User: " + user.username]
  }

  /** The single profile line of a per-user backup, when the user has a profile. */
  function ProfileLine(profile: Option<UserProfile>): (lines: seq<Line>)
    reads if profile.Some? then {profile.value} else {}
    ensures |lines| == if profile.Some? then 1 else 0
  {
    if profile.Some? then [Insert(ProfileInsertSql(profile.value))] else []
  }

  /** The lines of `generate_sql_backup_by_user`; `profile` is the user's profile, if any. */
  function ByUserLines(user: User, profile: Option<UserProfile>, db: Store, generatedAt: Timestamp): seq<Line>
    reads if profile.Some? then {profile.value} else {}
  {
    Opening(ByUserComments(user, generatedAt))
    + [Heading(UserData), Insert(UserInsertSql(user))]
    + Section(UserProfileData, ProfileLine(profile))
    + DataTables(AccountsOf(db.accounts, user.id), TransactionsOf(db.transactions, user.id),
                 GoalsOf(db.goals, user.id), CategoriesOf(db.categories, user.id), UserTitles)
    + Closing
  }

  /** The loop that appends one INSERT per row. */
  method AppendInserts<T>(lines: seq<Line>, rows: seq<T>, render: T -> string) returns (out: seq<Line>)
    ensures out == lines + Inserts(rows, render)
  {
    out := lines;
    var i := 0;
    while i < |rows|
      invariant 0 <= i <= |rows|
      invariant out == lines + Inserts(rows[..i], render)
    {
      assert rows[..i + 1][..i] == rows[..i];
      out := out + [Insert(render(rows[i]))];
      i := i + 1;
    }
    assert rows[..i] == rows;
  }

  /** A section title followed by one INSERT per row. */
  method AppendSection<T>(title: Title, rows: seq<T>, render: T -> string) returns (out: seq<Line>)
    ensures out == Section(title, Inserts(rows, render))
  {
    out := AppendInserts([Blank, Heading(title)], rows, render);
  }

  /** The loop over `User.objects.all()` that writes each existing profile. */
  method AppendProfiles(lines: seq<Line>, users: seq<User>, profileOf: map<int, UserProfile>) returns (out: seq<Line>)
    ensures out == lines + ProfileInserts(users, profileOf)
  {
    out := lines;
    var i := 0;
    while i < |users|
      invariant 0 <= i <= |users|
      invariant out == lines + ProfileInserts(users[..i], profileOf)
    {
      var u := users[i];
      var next := if u.id in profileOf then [Insert(ProfileInsertSql(profileOf[u.id]))] else [];
      ProfileInsertsStep(users, i, profileOf);
      assert (lines + ProfileInserts(users[..i], profileOf)) + next == lines + (ProfileInserts(users[..i], profileOf) + next);
      out := out + next;
      i := i + 1;
    }
    assert users[..i] == users;
  }

  /** The profile lines of one more user. */
  lemma ProfileInsertsStep(users: seq<User>, i: nat, profileOf: map<int, UserProfile>)
    requires i < |users|
    ensures ProfileInserts(users[..i + 1], profileOf) == ProfileInserts(users[..i], profileOf)
      + (if users[i].id in profileOf then [Insert(ProfileInsertSql(profileOf[users[i].id]))] else [])
  {
    var front := users[..i + 1];
    assert front[..i] == users[..i] && front[i] == users[i];
  }

  /**
   * `generate_sql_backup_all`: the source appends every line to one list;
   * here each section is collected and the sections are put together in the
   * same order.
   */
  method BackupAll(users: seq<User>, profileOf: map<int, UserProfile>, db: Store, generatedAt: Timestamp)
    returns (sql: string)
    ensures sql == Script(FullBackupLines(users, profileOf, db, generatedAt))
  {
    var userLines := AppendInserts([Heading(AuthUserTable)], users, UserInsertSql);
    var profileLines := AppendProfiles([Blank, Heading(ProfileTable)], users, profileOf);
    var dataLines := AppendDataTables(db.accounts, db.transactions, db.goals, db.categories, FullTitles);
    var lines := Opening(FullBackupComments(generatedAt)) + userLines + profileLines + dataLines + Closing;
    sql := Script(lines);
  }

  /** The four data-table loops, each appending its section. */
  method AppendDataTables(accounts: seq<Account>, transactions: seq<Transaction>, goals: seq<Goal>,
                          categories: seq<BudgetCategory>, titles: (Title, Title, Title, Title))
    returns (lines: seq<Line>)
    ensures lines == DataTables(accounts, transactions, goals, categories, titles)
  {
    var accountLines := AppendSection(titles.0, accounts, AccountInsertSql);
    var transactionLines := AppendSection(titles.1, transactions, TransactionInsertSql);
    var goalLines := AppendSection(titles.2, goals, GoalInsertSql);
    var categoryLines := AppendSection(titles.3, categories, CategoryInsertSql);
    lines := accountLines + transactionLines + goalLines + categoryLines;
  }

  /** `generate_sql_backup_by_user`, collected section by section like `BackupAll`. */
  method BackupByUser(user: User, profile: Option<UserProfile>, db: Store, generatedAt: Timestamp)
    returns (sql: string)
    ensures sql == Script(ByUserLines(user, profile, db, generatedAt))
  {
    var profileLines := [Blank, Heading(UserProfileData)];
    if profile.Some? {
      profileLines := profileLines + [Insert(ProfileInsertSql(profile.value))];
    }
    assert profileLines == Section(UserProfileData, ProfileLine(profile));
    var dataLines := AppendDataTables(AccountsOf(db.accounts, user.id), TransactionsOf(db.transactions, user.id),
                                      GoalsOf(db.goals, user.id), CategoriesOf(db.categories, user.id), UserTitles);
    var lines := Opening(ByUserComments(user, generatedAt)) + [Heading(UserData), Insert(UserInsertSql(user))]
      + profileLines + dataLines + Closing;
    sql := Script(lines);
  }

  // ---------------------------------------------------------------------
  // Properties of the statement order

  /** The number of INSERT statements among the lines. */
  function CountInserts(lines: seq<Line>): (n: nat)
    ensures n <= |lines|
    decreases |lines|
  {
    if lines == [] then 0
    else CountInserts(lines[..|lines| - 1]) + (if lines[|lines| - 1].Insert? then 1 else 0)
  }

  lemma {:induction false} CountConcat(a: seq<Line>, b: seq<Line>)
    ensures CountInserts(a + b) == CountInserts(a) + CountInserts(b)
    decreases |b|
  {
    if b == [] {
      assert a + b == a;
    } else {
      assert (a + b)[..|a + b| - 1] == a + b[..|b| - 1];
      CountConcat(a, b[..|b| - 1]);
    }
  }

  /** Lines none of which is an INSERT count zero. */
  lemma {:induction false} CountNone(lines: seq<Line>)
    requires forall k :: 0 <= k < |lines| ==> !lines[k].Insert?
    ensures CountInserts(lines) == 0
    decreases |lines|
  {
    if lines != [] {
      CountNone(lines[..|lines| - 1]);
    }
  }

  lemma {:induction false} CountRendered<T>(rows: seq<T>, render: T -> string)
    ensures CountInserts(Inserts(rows, render)) == |rows|
    decreases |rows|
  {
    if rows != [] {
      var lines := Inserts(rows, render);
      assert lines[..|lines| - 1] == Inserts(rows[..|rows| - 1], render);
      CountRendered(rows[..|rows| - 1], render);
    }
  }

  lemma {:induction false} CountProfiles(users: seq<User>, profileOf: map<int, UserProfile>)
    ensures CountInserts(ProfileInserts(users, profileOf)) == |ProfileInserts(users, profileOf)|
    decreases |users|
  {
    if users != [] {
      var front := ProfileInserts(users[..|users| - 1], profileOf);
      var u := users[|users| - 1];
      CountProfiles(users[..|users| - 1], profileOf);
      if u.id in profileOf {
        var line := Insert(ProfileInsertSql(profileOf[u.id]));
        assert (front + [line])[..|front|] == front;
      } else {
        assert front + [] == front;
      }
    }
  }

  /** Users with no profile add no profile line; every user with one adds exactly one. */
  lemma {:induction false} ProfilesOfAllUsers(users: seq<User>, profileOf: map<int, UserProfile>)
    ensures (forall i :: 0 <= i < |users| ==> users[i].id in profileOf) ==> |ProfileInserts(users, profileOf)| == |users|
    ensures (forall i :: 0 <= i < |users| ==> users[i].id !in profileOf) ==> ProfileInserts(users, profileOf) == []
    decreases |users|
  {
    if users != [] {
      ProfilesOfAllUsers(users[..|users| - 1], profileOf);
    }
  }

  /** Every INSERT line of a backup is an `INSERT INTO` statement. */
  lemma AllGeneratorsInsert()
    ensures forall u :: StartsWith(UserInsertSql(u), "INSERT")
    ensures forall a :: StartsWith(AccountInsertSql(a), "INSERT")
    ensures forall t :: StartsWith(TransactionInsertSql(t), "INSERT")
    ensures forall g :: StartsWith(GoalInsertSql(g), "INSERT")
    ensures forall c :: StartsWith(CategoryInsertSql(c), "INSERT")
  {
    forall u: User ensures StartsWith(UserInsertSql(u), "INSERT") {
      InsertStartsWithInsert("auth_user", UserColumns, UserValues(u));
    }
    forall a: Account ensures StartsWith(AccountInsertSql(a), "INSERT") {
      InsertStartsWithInsert("main_account", AccountColumns, AccountValues(a));
    }
    forall t: Transaction ensures StartsWith(TransactionInsertSql(t), "INSERT") {
      InsertStartsWithInsert("main_transaction", TransactionColumns, TransactionValues(t));
    }
    forall g: Goal ensures StartsWith(GoalInsertSql(g), "INSERT") {
      InsertStartsWithInsert("main_goal", GoalColumns, GoalValues(g));
    }
    forall c: BudgetCategory ensures StartsWith(CategoryInsertSql(c), "INSERT") {
      InsertStartsWithInsert("main_budgetcategory", CategoryColumns, CategoryValues(c));
    }
  }

  /** Counts of consecutive pieces add up. */
  lemma CountFour(p0: seq<Line>, p1: seq<Line>, p2: seq<Line>, p3: seq<Line>)
    ensures CountInserts(p0 + p1 + p2 + p3) == CountInserts(p0) + CountInserts(p1) + CountInserts(p2) + CountInserts(p3)
  {
    CountConcat(p0, p1);
    CountConcat(p0 + p1, p2);
    CountConcat(p0 + p1 + p2, p3);
  }

  lemma CountFive(p0: seq<Line>, p1: seq<Line>, p2: seq<Line>, p3: seq<Line>, p4: seq<Line>)
    ensures CountInserts(p0 + p1 + p2 + p3 + p4)
      == CountInserts(p0) + CountInserts(p1) + CountInserts(p2) + CountInserts(p3) + CountInserts(p4)
  {
    CountFour(p0, p1, p2, p3);
    CountConcat(p0 + p1 + p2 + p3, p4);
  }

  /** A section's title lines hold no statement; its rows give one INSERT each. */
  lemma SectionCount(title: Title, rows: seq<Line>)
    ensures CountInserts(Section(title, rows)) == CountInserts(rows)
  {
    CountNone([Blank, Heading(title)]);
    CountConcat([Blank, Heading(title)], rows);
  }

  lemma OpeningCount(comments: seq<string>)
    ensures |Opening(comments)| == |comments| + 3
    ensures CountInserts(Opening(comments)) == 0
  {
    CountNone(Opening(comments));
  }

  /**
   * The full backup opens with its comments and `BEGIN TRANSACTION;`, with
   * no INSERT before it, and ends with `COMMIT;`.
   */
  lemma FullBackupBrackets(users: seq<User>, profileOf: map<int, UserProfile>, db: Store, generatedAt: Timestamp)
    ensures var lines := FullBackupLines(users, profileOf, db, generatedAt);
      |lines| >= 8 && lines[4] == Begin && lines[|lines| - 1] == Commit && CountInserts(lines[..5]) == 0
  {
    var s0 := Opening(FullBackupComments(generatedAt));
    var lines := FullBackupLines(users, profileOf, db, generatedAt);
    assert lines[..5] == s0[..5];
    CountNone(s0[..5]);
  }

  /** A table section holds one INSERT per row. */
  lemma TableCount<T>(title: Title, rows: seq<T>, render: T -> string)
    ensures CountInserts(Section(title, Inserts(rows, render))) == |rows|
  {
    SectionCount(title, Inserts(rows, render));
    CountRendered(rows, render);
  }

  lemma UserTableCount(users: seq<User>)
    ensures CountInserts([Heading(AuthUserTable)] + Inserts(users, UserInsertSql)) == |users|
  {
    CountNone([Heading(AuthUserTable)]);
    CountConcat([Heading(AuthUserTable)], Inserts(users, UserInsertSql));
    CountRendered(users, UserInsertSql);
  }

  lemma ProfileTableCount(users: seq<User>, profileOf: map<int, UserProfile>)
    ensures CountInserts(Section(ProfileTable, ProfileInserts(users, profileOf))) == |ProfileInserts(users, profileOf)|
  {
    SectionCount(ProfileTable, ProfileInserts(users, profileOf));
    CountProfiles(users, profileOf);
  }

  /** The data-table sections hold one INSERT per row of the four tables. */
  lemma DataTablesCount(accounts: seq<Account>, transactions: seq<Transaction>, goals: seq<Goal>,
                        categories: seq<BudgetCategory>, titles: (Title, Title, Title, Title))
    ensures CountInserts(DataTables(accounts, transactions, goals, categories, titles))
      == |accounts| + |transactions| + |goals| + |categories|
  {
    TableCount(titles.0, accounts, AccountInsertSql);
    TableCount(titles.1, transactions, TransactionInsertSql);
    TableCount(titles.2, goals, GoalInsertSql);
    TableCount(titles.3, categories, CategoryInsertSql);
    CountFour(Section(titles.0, Inserts(accounts, AccountInsertSql)),
              Section(titles.1, Inserts(transactions, TransactionInsertSql)),
              Section(titles.2, Inserts(goals, GoalInsertSql)),
              Section(titles.3, Inserts(categories, CategoryInsertSql)));
  }

  /** The full backup holds one INSERT per user, per existing profile and per row of each table. */
  lemma FullBackupSplit(users: seq<User>, profileOf: map<int, UserProfile>, db: Store, generatedAt: Timestamp)
    ensures FullBackupLines(users, profileOf, db, generatedAt) == Opening(FullBackupComments(generatedAt)) + ([Heading(AuthUserTable)] + Inserts(users, UserInsertSql))
               + Section(ProfileTable, ProfileInserts(users, profileOf))
               + DataTables(db.accounts, db.transactions, db.goals, db.categories, FullTitles) + Closing
  {
  }

  lemma CountSum(p0: seq<Line>, p1: seq<Line>, p2: seq<Line>, p3: seq<Line>, a: nat, b: nat, c: nat)
    requires CountInserts(p0) == 0 && CountInserts(p1) == a && CountInserts(p2) == b && CountInserts(p3) == c
    ensures CountInserts(p0 + p1 + p2 + p3 + Closing) == a + b + c
  {
    CountNone(Closing);
    CountFive(p0, p1, p2, p3, Closing);
  }

  lemma FullBackupCount(users: seq<User>, profileOf: map<int, UserProfile>, db: Store, generatedAt: Timestamp)
    ensures CountInserts(FullBackupLines(users, profileOf, db, generatedAt))
      == |users| + |ProfileInserts(users, profileOf)| + |db.accounts| + |db.transactions| + |db.goals| + |db.categories|
  {
    FullBackupSplit(users, profileOf, db, generatedAt);
    OpeningCount(FullBackupComments(generatedAt));
    UserTableCount(users);
    ProfileTableCount(users, profileOf);
    DataTablesCount(db.accounts, db.transactions, db.goals, db.categories, FullTitles);
    CountSum(Opening(FullBackupComments(generatedAt)), [Heading(AuthUserTable)] + Inserts(users, UserInsertSql),
             Section(ProfileTable, ProfileInserts(users, profileOf)),
             DataTables(db.accounts, db.transactions, db.goals, db.categories, FullTitles),
             |users|, |ProfileInserts(users, profileOf)|, |db.accounts| + |db.transactions| + |db.goals| + |db.categories|);
  }

  lemma UserDataCount(sql: string)
    ensures CountInserts([Heading(UserData), Insert(sql)]) == 1
  {
    var lines := [Heading(UserData), Insert(sql)];
    assert lines[..1] == [Heading(UserData)];
    CountNone(lines[..1]);
  }

  lemma ProfileLineCount(profile: Option<UserProfile>)
    ensures CountInserts(Section(UserProfileData, ProfileLine(profile))) == if profile.Some? then 1 else 0
  {
    SectionCount(UserProfileData, ProfileLine(profile));
    if profile.Some? {
      assert ProfileLine(profile)[..0] == [];
    }
  }

  lemma ByUserSplit(user: User, profile: Option<UserProfile>, db: Store, generatedAt: Timestamp)
    ensures ByUserLines(user, profile, db, generatedAt)
      == Opening(ByUserComments(user, generatedAt)) + [Heading(UserData), Insert(UserInsertSql(user))]
         + Section(UserProfileData, ProfileLine(profile))
         + DataTables(AccountsOf(db.accounts, user.id), TransactionsOf(db.transactions, user.id),
                      GoalsOf(db.goals, user.id), CategoriesOf(db.categories, user.id), UserTitles)
         + Closing
  {
  }

  /**
   * A user's backup holds the user's own INSERT, one for the profile when
   * there is one, and one per row the user owns in each table.
   */
  lemma ByUserCount(user: User, profile: Option<UserProfile>, db: Store, generatedAt: Timestamp)
    ensures CountInserts(ByUserLines(user, profile, db, generatedAt))
      == 1 + (if profile.Some? then 1 else 0) + |AccountsOf(db.accounts, user.id)|
         + |TransactionsOf(db.transactions, user.id)| + |GoalsOf(db.goals, user.id)|
         + |CategoriesOf(db.categories, user.id)|
  {
    var accounts, transactions := AccountsOf(db.accounts, user.id), TransactionsOf(db.transactions, user.id);
    var goals, categories := GoalsOf(db.goals, user.id), CategoriesOf(db.categories, user.id);
    ByUserSplit(user, profile, db, generatedAt);
    OpeningCount(ByUserComments(user, generatedAt));
    UserDataCount(UserInsertSql(user));
    ProfileLineCount(profile);
    DataTablesCount(accounts, transactions, goals, categories, UserTitles);
    CountSum(Opening(ByUserComments(user, generatedAt)), [Heading(UserData), Insert(UserInsertSql(user))],
             Section(UserProfileData, ProfileLine(profile)),
             DataTables(accounts, transactions, goals, categories, UserTitles),
             1, if profile.Some? then 1 else 0, |accounts| + |transactions| + |goals| + |categories|);
  }
}
