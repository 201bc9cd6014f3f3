/**
 * `main/captcha_utils.py`: the puzzle-captcha answer check, the full-name
 * (ФИО) validator and its ordered chain of checks, and the name sanitiser.
 */
module Captcha {
  import opened Wrappers
  import opened Text

  /**
   * `verify_captcha_answer`: the placed pieces, `None` standing for an empty
   * slot and the whole list `None` when nothing was sent. The answer is
   * accepted exactly when the pieces read 1, 2, 3, 4.
   */
  function VerifyCaptchaAnswer(placed: Option<seq<Option<int>>>): (ok: bool)
    ensures ok <==> placed == Some([Some(1), Some(2), Some(3), Some(4)])
  {
    if placed.None? || placed.value == [] || |placed.value| != 4 then false
    else if exists k :: 0 <= k < 4 && placed.value[k].None? then false
    else placed.value == [Some(1), Some(2), Some(3), Some(4)]
  }

  /** The letters of the class `[а-яА-ЯёЁa-zA-Z]`. */
  predicate IsNameLetter(c: char) {
    ('а' <= c <= 'я') || ('А' <= c <= 'Я') || c == 'ё' || c == 'Ё' || ('a' <= c <= 'z') || ('A' <= c <= 'Z')
  }

  /** The class `[а-яА-ЯёЁa-zA-Z\-']`. */
  predicate IsNameChar(c: char) {
    IsNameLetter(c) || c == '-' || c == '\''
  }

  predicate AllNameChars(s: string) {
    forall k :: 0 <= k < |s| ==> IsNameChar(s[k])
  }

  /**
   * `re.match(r"^[а-яА-ЯёЁa-zA-Z\-']+$", s)`: one or more characters of the
   * class; Python's `$` also matches just before a final line feed.
   */
  predicate MatchesNamePattern(s: string) {
    (|s| >= 1 && AllNameChars(s))
    || (|s| >= 2 && s[|s| - 1] == '\n' && AllNameChars(s[..|s| - 1]))
  }

  /** The failures `validate_single_name` reports, in the order it tests them. */
  datatype NameProblem = Empty | TooShort | TooLong | BadCharacters | BadStart | BadEnd | Doubled

  /** The message `validate_single_name` returns for a failure in the field `field`. */
  function ProblemMessage(field: string, p: NameProblem): string {
    match p
    case Empty => field + " не может быть пустым"
    case TooShort => field + " должно содержать минимум 2 символа"
    case TooLong => field + " должно содержать максимум 100 символов"
    case BadCharacters => field + " может содержать только буквы, дефис и апостроф. Без цифр и спецсимволов!"
    case BadStart => field + " не может начинаться с дефиса или апострофа"
    case BadEnd => field + " не может заканчиваться на дефис или апостроф"
    case Doubled => field + " не может содержать двойные дефисы или апострофы"
  }

  /**
   * The chain of `validate_single_name`, first failure wins. `None` stands
   * for a missing value (`None`); names that are not strings are not
   * modelled. The emptiness test comes before `strip()`.
   */
  function NameProblemOf(name: Option<string>): Option<NameProblem> {
    if name.None? || name.value == "" then Some(Empty)
    else
      var s := Strip(name.value);
      if |s| < 2 then Some(TooShort)
      else if |s| > 100 then Some(TooLong)
      else if !MatchesNamePattern(s) then Some(BadCharacters)
      else if StartsWith(s, "-") || StartsWith(s, "'") then Some(BadStart)
      else if EndsWith(s, "-") || EndsWith(s, "'") then Some(BadEnd)
      else if Contains(s, "--") || Contains(s, "''") then Some(Doubled)
      else None
  }

  /** `validate_single_name(name, field_name)`: `(True, None)` or `(False, message)`. */
  function ValidateSingleName(name: Option<string>, field: string): (r: (bool, Option<string>))
    ensures r.0 <==> r.1 == None
    ensures !r.0 ==> NameProblemOf(name).Some? && r.1 == Some(ProblemMessage(field, NameProblemOf(name).value))
  {
    match NameProblemOf(name)
    case None => (true, None)
    case Some(p) => (false, Some(ProblemMessage(field, p)))
  }

  /**
   * The shape of an acceptable name, stated independently of the chain:
   * 2..100 characters of the class, a letter at both ends and no doubled
   * hyphen or apostrophe.
   */
  predicate AcceptableName(s: string) {
    2 <= |s| <= 100 && AllNameChars(s)
    && IsNameLetter(s[0]) && IsNameLetter(s[|s| - 1])
    && !HasPair(s, '-', '-') && !HasPair(s, '\'', '\'')
  }

  /** A name passes `validate_single_name` exactly when its stripped form has the acceptable shape. */
  lemma AcceptedNames(name: string, field: string)
    ensures ValidateSingleName(Some(name), field).0 <==> AcceptableName(Strip(name))
  {
    var s := Strip(name);
    StripSlice(name);
    ContainsPair(s, '-', '-');
    ContainsPair(s, '\'', '\'');
    assert "--" == ['-', '-'] && "''" == ['\'', '\''];
    if 2 <= |s| {
      assert s[|s| - 1] != '\n' by {
        assert !IsSpace(s[|s| - 1]);
      }
      assert MatchesNamePattern(s) <==> AllNameChars(s);
      assert StartsWith(s, "-") <==> s[0] == '-' by {
        assert s[..1] == [s[0]];
      }
      assert StartsWith(s, "'") <==> s[0] == '\'' by {
        assert s[..1] == [s[0]];
      }
      assert EndsWith(s, "-") <==> s[|s| - 1] == '-' by {
        assert s[|s| - 1..] == [s[|s| - 1]];
      }
      assert EndsWith(s, "'") <==> s[|s| - 1] == '\'' by {
        assert s[|s| - 1..] == [s[|s| - 1]];
      }
    }
    if name == "" {
      assert s == "";
    }
  }

  /** A value of only whitespace passes the emptiness test and fails on length. */
  lemma WhitespaceOnlyIsTooShort(name: string)
    requires name != "" && forall k :: 0 <= k < |name| ==> IsSpace(name[k])
    ensures NameProblemOf(Some(name)) == Some(TooShort)
  {
    StripEmpty(name);
  }

  /**
   * `validate_fio(first_name, last_name, patronymic)`: the last name is
   * checked first, then the first name, then the patronymic when it is
   * truthy; the first failure's message is returned.
   */
  function ValidateFio(firstName: Option<string>, lastName: Option<string>, patronymic: Option<string>): (r: (bool, Option<string>))
    ensures r.0 <==> r.1 == None
  {
    var (lastOk, lastError) := ValidateSingleName(lastName, "Фамилия");
    if !lastOk then (false, lastError)
    else
      var (firstOk, firstError) := ValidateSingleName(firstName, "Имя");
      if !firstOk then (false, firstError)
      else if patronymic.Some? && patronymic.value != "" then
        var (patronymicOk, patronymicError) := ValidateSingleName(patronymic, "Отчество");
        if !patronymicOk then (false, patronymicError) else (true, None)
      else (true, None)
  }

  /** The full name is valid exactly when each checked field is, and the message is the earliest field's. */
  lemma FioVerdict(firstName: Option<string>, lastName: Option<string>, patronymic: Option<string>)
    ensures var checkPatronymic := patronymic.Some? && patronymic.value != "";
      var r := ValidateFio(firstName, lastName, patronymic);
      (r.0 <==> (NameProblemOf(lastName) == None && NameProblemOf(firstName) == None
                 && (checkPatronymic ==> NameProblemOf(patronymic) == None)))
      && (NameProblemOf(lastName).Some? ==> r.1 == Some(ProblemMessage("Фамилия", NameProblemOf(lastName).value)))
      && (NameProblemOf(lastName) == None && NameProblemOf(firstName).Some?
        ==> r.1 == Some(ProblemMessage("Имя", NameProblemOf(firstName).value)))
      && ((NameProblemOf(lastName) == None && NameProblemOf(firstName) == None && checkPatronymic
           && NameProblemOf(patronymic).Some?)
          ==> r.1 == Some(ProblemMessage("Отчество", NameProblemOf(patronymic).value)))
  {
  }

  /** No whitespace at either end. */
  predicate Trimmed(x: string) {
    x == [] || (!IsSpace(x[0]) && !IsSpace(x[|x| - 1]))
  }

  /** `x.strip() if x else ""`. */
  function Clean(x: Option<string>): (r: string)
    ensures Trimmed(r)
  {
    if x.Some? && x.value != "" then StripSlice(x.value); Strip(x.value) else ""
  }

  /** `sanitize_fio`: each field stripped, a missing or empty one becoming "". */
  function SanitizeFio(firstName: Option<string>, lastName: Option<string>, patronymic: Option<string>): (r: (string, string, string))
    ensures Trimmed(r.0) && Trimmed(r.1) && Trimmed(r.2)
  {
    (Clean(firstName), Clean(lastName), Clean(patronymic))
  }

  /** Cleaning a cleaned value changes nothing. */
  lemma CleanIdempotent(x: Option<string>)
    ensures Clean(Some(Clean(x))) == Clean(x)
  {
    if x.Some? && x.value != "" {
      StripIdempotent(x.value);
    }
  }

  /** Sanitising twice is sanitising once. */
  lemma SanitizeIdempotent(firstName: Option<string>, lastName: Option<string>, patronymic: Option<string>)
    ensures var r := SanitizeFio(firstName, lastName, patronymic);
      SanitizeFio(Some(r.0), Some(r.1), Some(r.2)) == r
  {
    CleanIdempotent(firstName);
    CleanIdempotent(lastName);
    CleanIdempotent(patronymic);
  }

  /**
   * Validating a sanitised name gives the same verdict as validating the raw
   * one, except that a name of only whitespace now reports emptiness
   * instead of being too short.
   */
  lemma SanitizeKeepsVerdict(name: string)
    ensures var cleaned := Clean(Some(name));
      if name != "" && Strip(name) == "" then
        NameProblemOf(Some(name)) == Some(TooShort) && NameProblemOf(Some(cleaned)) == Some(Empty)
      else NameProblemOf(Some(cleaned)) == NameProblemOf(Some(name))
  {
    StripIdempotent(name);
  }
}
