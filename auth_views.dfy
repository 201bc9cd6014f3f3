/**
 * `main/views.py`: the login view with its failed-attempt lockout, and the
 * ordered checks of the registration view. `authenticate` is an input: the
 * model only knows whether the credentials were accepted.
 */
module AuthViews {
  import opened Wrappers
  import opened Text
  import opened Models

  // ---------------------------------------------------------------------
  // The import of main/views.py

  /** The names main/views.py:12 imports from `main.captcha_utils`. */
  const ViewsImportsFromCaptcha: set<string> := {"get_captcha_pieces"}

  /** The top-level names main/captcha_utils.py defines (lines 8, 18, 42, 113). */
  const CaptchaUtilsDefines: set<string> :=
    {"generate_captcha_sequence", "verify_captcha_answer", "validate_fio", "sanitize_fio"}

  /**
   * `from m import a, b` binds each name that module `m` defines; a name it
   * does not define raises `ImportError`, and the importing module does not
   * load.
   */
  predicate ImportSucceeds(imported: set<string>, defined: set<string>) {
    forall name :: name in imported ==> name in defined
  }

  /**
   * As written, main/views.py cannot be imported: `get_captcha_pieces` is
   * not defined by main/captcha_utils.py, so neither view can run.
   */
  lemma ViewsImportFails()
    ensures !ImportSucceeds(ViewsImportsFromCaptcha, CaptchaUtilsDefines)
    ensures "get_captcha_pieces" in ViewsImportsFromCaptcha && "get_captcha_pieces" !in CaptchaUtilsDefines
  {
    assert "get_captcha_pieces" in ViewsImportsFromCaptcha;
  }

  /**
   * The captcha module the views evidently expect: it also defines
   * `get_captcha_pieces`. `Login` and `Register` model the views under it.
   */
  const CaptchaUtilsDefinesCorrected: set<string> := CaptchaUtilsDefines + {"get_captcha_pieces"}

  /** With `get_captcha_pieces` defined, every name the views import resolves, and the module's other names are kept. */
  lemma ViewsImportCorrected()
    ensures ImportSucceeds(ViewsImportsFromCaptcha, CaptchaUtilsDefinesCorrected)
    ensures CaptchaUtilsDefines <= CaptchaUtilsDefinesCorrected
  {
  }

  // ---------------------------------------------------------------------
  // Login

  /** Failed attempts that block a profile. */
  const MaxAttempts := 3

  /** What the login view answers with. */
  datatype LoginOutcome =
    | LoginForm                      // GET: the empty form
    | CaptchaRequired                // captcha_passed != '1'
    | UserNotFound                   // User.DoesNotExist
    | MissingProfile                 // `user.profile` raises; the view does not catch it
    | Locked                         // redirect to the account-locked page
    | LoggedIn                       // redirect to the index page
    | WrongCredentials(remaining: int)

  /** The error text the login form shows for an outcome. */
  function LoginError(outcome: LoginOutcome): Option<string> {
    match outcome
    case CaptchaRequired => Some("Пожалуйста, пройдите проверку капчей")
    case UserNotFound => Some("Пользователь не найден")
    case WrongCredentials(remaining) => Some("Неверные данные. Осталось попыток: " + IntToString(remaining))
    case _ => None
  }

  /**
   * One password attempt on an existing profile after the captcha passed:
   * the new lockout state and the outcome.
   */
  function LoginStep(s: Lockout, authenticated: bool, now: Timestamp): (Lockout, LoginOutcome)
  {
    if s.isBlocked then (s, Locked)
    else if authenticated then (s.(failedLoginAttempts := 0), LoggedIn)
    else
      var attempts := s.failedLoginAttempts + 1;
      if attempts >= MaxAttempts then (Lockout(attempts, true, Some(now)), Locked)
      else (s.(failedLoginAttempts := attempts), WrongCredentials(MaxAttempts - attempts))
  }

  /** Whether the step writes the profile (every branch but the blocked one saves). */
  predicate LoginSaves(s: Lockout) {
    !s.isBlocked
  }

  /**
   * The lockout rules: a blocked profile is left alone and locked out; a
   * success clears the counter; a failure adds one, blocks at three and
   * otherwise reports the attempts left.
   */
  lemma LoginRules(s: Lockout, authenticated: bool, now: Timestamp)
    requires Coherent(s)
    ensures var (t, outcome) := LoginStep(s, authenticated, now);
      (s.isBlocked ==> t == s && outcome == Locked)
      && (!s.isBlocked && authenticated ==> t == Lockout(0, false, None) && outcome == LoggedIn)
      && (!s.isBlocked && !authenticated ==>
            t.failedLoginAttempts == s.failedLoginAttempts + 1
            && (t.isBlocked <==> t.failedLoginAttempts == MaxAttempts)
            && (t.isBlocked ==> t.blockedAt == Some(now) && outcome == Locked)
            && (!t.isBlocked ==> t.blockedAt == None && outcome == WrongCredentials(MaxAttempts - t.failedLoginAttempts)))
  {
  }

  /** A login attempt keeps the lockout state coherent. */
  lemma LoginPreservesCoherence(s: Lockout, authenticated: bool, now: Timestamp)
    requires Coherent(s)
    ensures Coherent(LoginStep(s, authenticated, now).0)
  {
  }

  /** The profile's state after a series of password attempts at one time. */
  function Attempts(s: Lockout, results: seq<bool>, now: Timestamp): Lockout
    decreases |results|
  {
    if results == [] then s else Attempts(LoginStep(s, results[0], now).0, results[1..], now)
  }

  /** `k` wrong passwords in a row on an unblocked profile count up from where the counter stood. */
  lemma {:induction false} FailuresAccumulate(s: Lockout, k: nat, now: Timestamp)
    requires Coherent(s) && !s.isBlocked && s.failedLoginAttempts + k < MaxAttempts
    ensures Attempts(s, seq(k, _ => false), now) == s.(failedLoginAttempts := s.failedLoginAttempts + k)
    decreases k
  {
    if k > 0 {
      var t := LoginStep(s, false, now).0;
      assert seq(k, _ => false)[1..] == seq(k - 1, _ => false);
      FailuresAccumulate(t, k - 1, now);
    }
  }

  /** Three wrong passwords lock any unblocked coherent profile, whatever the counter was. */
  lemma {:induction false} ThreeFailuresBlock(s: Lockout, now: Timestamp)
    requires Coherent(s)
    ensures Attempts(s, [false, false, false], now).isBlocked
  {
    var s1 := LoginStep(s, false, now).0;
    var s2 := LoginStep(s1, false, now).0;
    var s3 := LoginStep(s2, false, now).0;
    assert [false, false, false][1..] == [false, false];
    assert [false, false][1..] == [false];
    assert Attempts(s, [false, false, false], now) == Attempts(s3, [], now);
  }

  /** From a fresh profile: three failures give three counted attempts and a block time. */
  lemma {:induction false} FreshProfileBlocksAtThree(now: Timestamp)
    ensures Attempts(Unlocked, [false, false, false], now) == Lockout(3, true, Some(now))
  {
    assert [false, false, false][1..] == [false, false];
    assert [false, false][1..] == [false];
  }

  /** From a fresh profile: two failures then a success leave the counter at zero. */
  lemma {:induction false} SuccessAfterFailuresResets(now: Timestamp)
    ensures Attempts(Unlocked, [false, false], now) == Lockout(2, false, None)
    ensures Attempts(Unlocked, [false, false, true], now) == Unlocked
  {
    assert [false, false, true][1..] == [false, true];
    assert [false, true][1..] == [true];
    assert [false, false][1..] == [false];
  }

  /** The profiles the login view can write: those of the users in the directory. */
  function Profiles(directory: map<string, Option<UserProfile>>): set<UserProfile> {
    set name | name in directory && directory[name].Some? :: directory[name].value
  }

  /**
   * The POST branch of `login`. `directory` maps each username to its
   * profile (`None` for a user without one); `authenticated` is what
   * `authenticate` answered.
   */
  method Login(username: string, captchaPassed: string, authenticated: bool, now: Timestamp,
               directory: map<string, Option<UserProfile>>)
    returns (outcome: LoginOutcome)
    modifies Profiles(directory)
    ensures captchaPassed != "1" ==> outcome == CaptchaRequired
    ensures captchaPassed == "1" && username !in directory ==> outcome == UserNotFound
    ensures captchaPassed == "1" && username in directory && directory[username].None? ==> outcome == MissingProfile
    ensures captchaPassed == "1" && username in directory && directory[username].Some? ==>
      var p := directory[username].value;
      (p.Lock(), outcome) == LoginStep(old(p.Lock()), authenticated, now)
      && p.updatedAt == (if LoginSaves(old(p.Lock())) then now else old(p.updatedAt))
      && p.firstName == old(p.firstName) && p.lastName == old(p.lastName) && p.patronymic == old(p.patronymic)
      && p.createdAt == old(p.createdAt)
    ensures forall q :: q in Profiles(directory) && !(captchaPassed == "1" && username in directory && directory[username] == Some(q)) ==>
      q.Lock() == old(q.Lock()) && q.updatedAt == old(q.updatedAt)
      && q.firstName == old(q.firstName) && q.lastName == old(q.lastName) && q.patronymic == old(q.patronymic)
      && q.createdAt == old(q.createdAt)
  {
    if captchaPassed != "1" {
      return CaptchaRequired;
    }
    if username !in directory {
      return UserNotFound;
    }
    if directory[username].None? {
      return MissingProfile;
    }
    var profile := directory[username].value;
    if profile.isBlocked {
      return Locked;
    }
    if authenticated {
      profile.failedLoginAttempts := 0;
      profile.updatedAt := now;
      return LoggedIn;
    }
    profile.failedLoginAttempts := profile.failedLoginAttempts + 1;
    if profile.failedLoginAttempts >= MaxAttempts {
      profile.isBlocked := true;
      profile.blockedAt := Some(now);
      profile.updatedAt := now;
      return Locked;
    }
    var remaining := MaxAttempts - profile.failedLoginAttempts;
    profile.updatedAt := now;
    return WrongCredentials(remaining);
  }

  /**
   * What the registration view answers with, in the order it checks.
   * `CreateFailed` is the exception `create_user` raises after the four
   * checks pass: the view then gives no answer of its own.
   */
  datatype RegisterOutcome = RegisterCaptchaRequired | PasswordsDiffer | PasswordTooShort | UsernameTaken | CreateFailed | Registered

  /** The error text the registration form shows; `None` when the view raises or succeeds. */
  function RegisterError(outcome: RegisterOutcome): Option<string> {
    match outcome
    case RegisterCaptchaRequired => Some("Пожалуйста, пройдите проверку капчей")
    case PasswordsDiffer => Some("Пароли не совпадают")
    case PasswordTooShort => Some("Пароль должен быть не менее 6 символов")
    case UsernameTaken => Some("Пользователь с таким именем уже существует")
    case CreateFailed => None
    case Registered => None
  }

  predicate IsAscii(s: string) { forall k :: 0 <= k < |s| ==> s[k] < 128 as char }

  /**
   * `User.objects.create_user`: it raises `ValueError` for an empty username,
   * and it stores the NFKC form `stored` of the name, so it fails on the
   * unique constraint when that form is already a username. `existing` are
   * the stored usernames.
   */
  predicate CreateUserFails(username: string, stored: string, existing: set<string>) {
    username == [] || stored in existing
  }

  /**
   * The checks of `register`, first failure wins, then `create_user`.
   * `existing` are the usernames already taken; the view's own check
   * compares the name as posted, `create_user` its NFKC form `stored`.
   */
  function RegisterCheck(username: string, stored: string, password: string, passwordConfirm: string,
                         captchaPassed: string, existing: set<string>): RegisterOutcome
  {
    if captchaPassed != "1" then RegisterCaptchaRequired
    else if password != passwordConfirm then PasswordsDiffer
    else if |password| < 6 then PasswordTooShort
    else if username in existing then UsernameTaken
    else if CreateUserFails(username, stored, existing) then CreateFailed
    else Registered
  }

  /**
   * A user is created exactly when all four checks pass and `create_user`
   * does not raise, and each failure is reported only when every earlier
   * check passed.
   */
  lemma RegisterOrder(username: string, stored: string, password: string, passwordConfirm: string,
                      captchaPassed: string, existing: set<string>)
    ensures var r := RegisterCheck(username, stored, password, passwordConfirm, captchaPassed, existing);
      (r == Registered <==> (captchaPassed == "1" && password == passwordConfirm && |password| >= 6
                             && username !in existing && username != [] && stored !in existing))
      && (r == PasswordsDiffer ==> captchaPassed == "1")
      && (r == PasswordTooShort ==> captchaPassed == "1" && password == passwordConfirm)
      && (r == UsernameTaken ==> captchaPassed == "1" && password == passwordConfirm && |password| >= 6)
      && (r == CreateFailed <==> (captchaPassed == "1" && password == passwordConfirm && |password| >= 6
                                  && username !in existing && (username == [] || stored in existing)))
  {
  }

  /**
   * NFKC leaves ASCII text as it is, so for an ASCII name the view's own
   * check already catches a taken name, and `create_user` fails only on the
   * empty name.
   */
  lemma AsciiNameFailsOnlyEmpty(username: string, stored: string, password: string, passwordConfirm: string,
                                captchaPassed: string, existing: set<string>)
    requires IsAscii(username) ==> stored == username
    requires IsAscii(username)
    ensures RegisterCheck(username, stored, password, passwordConfirm, captchaPassed, existing) == CreateFailed
      <==> captchaPassed == "1" && password == passwordConfirm && |password| >= 6 && username !in existing && username == []
  {
  }

  /** The registration as the view runs it: the new user's profile gets the names given and a fresh lockout state. */
  method Register(username: string, stored: string, password: string, passwordConfirm: string, firstName: string,
                  lastName: string, captchaPassed: string, existing: set<string>, newUser: User, profileId: int,
                  now: Timestamp)
    returns (outcome: RegisterOutcome, profile: Option<UserProfile>)
    requires IsAscii(username) ==> stored == username
    requires newUser.username == stored && newUser.firstName == firstName && newUser.lastName == lastName
    ensures outcome == RegisterCheck(username, stored, password, passwordConfirm, captchaPassed, existing)
    ensures profile.Some? <==> outcome == Registered
    ensures profile.Some? ==>
      fresh(profile.value) && profile.value.id == profileId && profile.value.user == newUser
      && profile.value.firstName == firstName && profile.value.lastName == lastName && profile.value.patronymic == ""
      && profile.value.createdAt == now && profile.value.updatedAt == now
      && profile.value.Lock() == Unlocked
  {
    outcome := RegisterCheck(username, stored, password, passwordConfirm, captchaPassed, existing);
    if outcome != Registered {
      return outcome, None;
    }
    var p := new UserProfile(profileId, newUser, "", "", "", now);
    p.firstName := firstName;
    p.lastName := lastName;
    profile := Some(p);
  }
}
