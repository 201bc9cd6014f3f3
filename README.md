# CtrlMoney — a Dafny model of its rules

CtrlMoney is a Django personal-finance application. Each user keeps accounts, income and expense transactions, savings goals and monthly budget categories. Two browser dashboards work over these records: the main page (`main/static/js/script.js`) and the forecast page (`forecast/static/forecast/script.js`). The server code adds the rules around them:
- a login lockout after three failed attempts, with admin actions to block, unblock and reset it;
- a full-name validator and a puzzle captcha;
- an SQL backup made of INSERT statements;
- JSON export and import with per-row validation;
- a read-only SQL console guarded by a keyword check;
- the forecast page's API for budget categories and goal links.

This project models those rules in Dafny and proves what they promise. Each part lives in its own module:

| module | file | models |
|---|---|---|
| `Wrappers` | wrappers.dfy | `Option` and `Result` |
| `Text` | text.dfy | Python's `str.strip`, `lower` and `in`, and `str()` of integers |
| `Calendar` | calendar.dfy | the local calendar as JavaScript's `Date` sees it: civil dates, day numbers, `getDay()` and instants in milliseconds |
| `Models` | models.dfy | the records of main/models.py, with their value floors, `Goal.calculated_amount`, `Goal.progress_percent`, `Account.get_amount_display`, `UserProfile.full_name` and the lockout fields |
| `Captcha` | captcha.dfy | main/captcha_utils.py: the captcha answer check and the name validators |
| `AuthViews` | auth_views.dfy | main/views.py: `login` as a state machine over the profile (the `Profile` class), and the order of the checks in `register` |
| `Admin` | admin.dfy | main/admin.py: the three profile actions, the read-only fields, the goal progress colour and the read-only mixin |
| `Backup` | backup.dfy | main/backup_utils.py: `escape_sql_string`, the six INSERT generators, the two backup builders, and a reader that parses the statements back |
| `JsonIO` | json_io.dfy | main/json_utils.py: the structure check, the row rules and counters of the import, and the export |
| `ForecastViews` | forecast_views.dfy | forecast/views.py: the SQL guard, the category upsert and delete, the replacement of goal links, and the shape of `api_goals` and `index` |
| `ForecastScript` | forecast_script.dfy | the forecast page's range filter, monthly and per-category tallies, month labels and chart series |
| `ForecastMonth` | forecast_month.dfy | the forecast page's month summary and projection, budget statuses, budget chart and day-by-day cash flow |
| `ForecastGoals` | forecast_goals.dfy | the forecast page's goal accumulation, progress and status |
| `ForecastPlanner` | forecast_planner.dfy | the forecast page's category list, with its save and delete handlers (the `Planner` class) |
| `DashboardScript` | dashboard_script.dfy | the main page's period ranges, filtering, chart buckets, averages, savings percentage, input checks, in-place list updates (the `Dashboard` class), data clearing and `escapeHtml` |

Some representation choices:
- The server stores money as `DecimalField`s with two places. The model holds these amounts as `int` kopecks.
- The browser holds amounts as JavaScript numbers. The model holds these as `real`.
- A JavaScript date is a local date with the milliseconds since local midnight, or nothing when `new Date(...)` gives an invalid date.
- The stored tables are a `Store` value of sequences that the server operations take and return.
- Where the source updates an object's fields in place, the model is a class whose methods are proved against functions of the old state: the profile during login, the forecast category list and the main page's variables.

Where the documentation and the code disagree, the model follows the code. Where the code looks wrong (see "## Findings"), the operations still follow the code as written, and the intended behaviour is a separately named definition with its own proof:
- The docstring of `generate_sql_backup_all` (main/backup_utils.py:12) promises DROP and CREATE statements. The code emits only INSERT statements, between `BEGIN TRANSACTION;` and `COMMIT;`.
- main/models.py does not declare the lockout fields. main/views.py, main/admin.py and main/tests.py all use them, so the model takes their names and defaults from main/tests.py:25-30: not blocked, 0 failed attempts, no block time.

## Model

| member | source | states |
|---|---|---|
| Models.UserProfile.constructor | main/models.py:239-251 | a new profile holds the given names, the creation time as both timestamps, and the unblocked lockout state that main/tests.py:25-30 checks (no failed attempts, not blocked, no block time) |
| Models.TruncatedDiv | main/models.py:182 | `int()` of a quotient truncates toward zero: for a positive divisor the result is the floor of a non-negative quotient and the ceiling of a negative one |
| Models.ProgressPercent | main/models.py:177-182 | the progress is never above 100, is 0 when the calculated amount or the target is zero, is non-negative for a positive amount and target, and non-positive for a negative amount |
| Models.ProgressIsTruncation | main/models.py:177-182 | for a positive amount and target, the cap of 100 is reached exactly when the amount reaches the target, and below it the percentage is the integer part of amount·100/target |
| Models.CalculatedAmountAppend | main/models.py:184-202 | one more transaction changes the calculated amount by its amount when it is the owner's income, by minus its amount when it is the owner's expense, and not at all for another user, another type, or a goal that counts only linked accounts |
| Models.RoundHalfEven | main/models.py:58-59 | the `.0f` rounding of an amount gives the nearest whole rouble, within half a rouble, and on a tie the even one |
| Models.GroupThousandsDigits | main/models.py:58-59 | grouping the digits by thousands only inserts spaces: removing them gives the digits back, and there is one space for every full group of three after the first |
| Models.GroupThousandsGroups | main/models.py:58-59 | the space-separated groups of the display are all digits; the first has one to three of them and every other has exactly three |
| Models.AmountDisplayDigits | main/models.py:58-59 | `get_amount_display` read without its spaces is the sign followed by `str()` of the rounded roubles, and that rounding is within half a rouble |
| Models.FullNameParts | main/models.py:257-269 | the full name is "last first", then " patronymic" only when the patronymic is non-empty: for parts without spaces, splitting it at the spaces gives back exactly those parts, in that order |
| Models.AccountsOf | main/models.py:21-27 | `user.accounts.all()` holds exactly the accounts of that user, and no more rows than the table; the row order is not modelled (see "## Left out") |
| Models.TransactionsOf | main/models.py:80-86 | `user.transactions.all()` holds exactly the transactions of that user, and no more rows than the table; the row order is not modelled (see "## Left out") |
| Models.GoalsOf | main/models.py:134-140 | `user.goals.all()` holds exactly the goals of that user, and no more rows than the table; the row order is not modelled (see "## Left out") |
| Models.CategoriesOf | main/models.py:207-213 | `user.budget_categories.all()` holds exactly the categories of that user, and no more rows than the table; the row order is not modelled (see "## Left out") |
| Text.StripSlice | main/captcha_utils.py:125-127 | `str.strip()` returns a slice of its input that neither starts nor ends with whitespace, and everything it cuts off on either side is whitespace |
| Text.StripIdempotent | main/captcha_utils.py:71 | stripping an already stripped name changes nothing |
| Text.StripEmpty | main/captcha_utils.py:125-127 | a stripped text is empty exactly when the input held only whitespace |
| Text.Lower | forecast/views.py:270 | ASCII lowering, which stands for `lower()` in the SQL guard: it keeps the length and maps each character on its own, letters `A`-`Z` to `a`-`z` and every other character to itself (why that gives the guard's verdict is under "## Left out") |
| Text.ContainsAt | forecast/views.py:270-274 | a text occurring at any offset of the input makes the substring test `in` true |
| Text.ContainsPair | main/captcha_utils.py:79-86 | the substring test for two characters is true exactly when they stand side by side somewhere in the input |
| Text.NatToStringValue | main/backup_utils.py:146 | the decimal digits `str(n)` prints read back as `n` |
| Text.IntToStringRoundTrip | main/backup_utils.py:146 | `str(i)` of any integer, negative ones included, parses back to `i` |
| Text.IntToStringInjective | main/backup_utils.py:146 | different integers print differently |
| Captcha.VerifyCaptchaAnswer | main/captcha_utils.py:18-39 | the answer is accepted exactly when the four placed pieces read 1, 2, 3, 4; nothing sent, a wrong length, an empty slot or another order is refused (the cases of test_new_features.py:72-78) |
| Captcha.ValidateSingleName | main/captcha_utils.py:66-92 | the verdict is true exactly when there is no message, and a failure carries the message of the first failing check for that field |
| Captcha.AcceptedNames | main/captcha_utils.py:64-92 | a name passes exactly when its stripped form has 2 to 100 characters, all Cyrillic or Latin letters, hyphens or apostrophes, starts and ends with a letter, and holds no doubled hyphen or apostrophe |
| Captcha.WhitespaceOnlyIsTooShort | main/captcha_utils.py:68-74 | a non-empty value of only whitespace passes the emptiness test and is then reported as too short |
| Captcha.ValidateFio | main/captcha_utils.py:94-110 | the verdict is true exactly when no message is returned |
| Captcha.FioVerdict | main/captcha_utils.py:94-110 | the full name is valid exactly when the last name, the first name and (when given) the patronymic each pass, and the message is that of the earliest failing field in that order |
| Captcha.SanitizeFio | main/captcha_utils.py:113-129 | each of the three cleaned fields is free of whitespace at both ends |
| Captcha.SanitizeIdempotent | main/captcha_utils.py:113-129 | sanitising an already sanitised full name changes nothing |
| Captcha.SanitizeKeepsVerdict | main/captcha_utils.py:66-92 | validating the sanitised name gives the verdict of the raw one, except that a non-empty name of only whitespace turns from "too short" into "empty" |
| AuthViews.LoginRules | main/views.py:49-82 | a blocked profile is left untouched and locked out; a correct password clears the counter and logs in; a wrong one adds one attempt, blocks with the current time exactly when the count reaches three and otherwise reports the attempts left |
| AuthViews.LoginPreservesCoherence | main/views.py:56-76 | every attempt keeps the lockout state coherent: a profile is blocked exactly when it carries a block time, and an unblocked one has fewer than three attempts |
| AuthViews.FailuresAccumulate | main/views.py:63-76 | wrong passwords on an unblocked profile count up one by one from where the counter stood, as long as they stay below three (main/tests.py:32-41) |
| AuthViews.ThreeFailuresBlock | main/views.py:63-73 | three wrong passwords in a row block any coherent profile |
| AuthViews.FreshProfileBlocksAtThree | main/views.py:63-73 | from a fresh profile three failures leave three counted attempts, the block flag and the block time (main/tests.py:66-78) |
| AuthViews.SuccessAfterFailuresResets | main/views.py:55-58 | two failures then a success leave the counter at zero and the profile unblocked (main/tests.py:43-64) |
| AuthViews.ViewsImportFails | main/views.py:12 | as written, `get_captcha_pieces` is imported but main/captcha_utils.py does not define it, so importing the views fails |
| AuthViews.ViewsImportCorrected | main/views.py:12 | with `get_captcha_pieces` added to the captcha module, the import resolves; `Login` and `Register` model the views under this assumption |
| AuthViews.Login | main/views.py:31-90 | the POST branch of the login view: the captcha is checked first, then the user's existence, then the block, and the user's profile ends in the state and outcome the lockout rules give, saved in every branch but the blocked one; every other profile is unchanged |
| AuthViews.RegisterOrder | main/views.py:111-145 | a user is created exactly when the captcha passed, the passwords agree, the password has at least six characters, the name as posted is free, and `create_user` does not raise (a non-empty name whose NFKC form is free); each failure is reported only when every earlier check passed |
| AuthViews.AsciiNameFailsOnlyEmpty | main/views.py:133-145 | for an ASCII name, which NFKC leaves as it is, `create_user` fails after the view's checks only for the empty name |
| AuthViews.Register | main/views.py:101-153 | the outcome is that of the checks and of `create_user`, and a new profile exists exactly when registration succeeds; it belongs to the new user, stored under the NFKC form of the name, holds the names given with an empty patronymic, has both timestamps at the time of registration and starts unblocked |
| Admin.ActionsPreserveCoherence | main/admin.py:436-459 | blocking, unblocking and resetting the counter each keep the lockout state coherent; blocking sets the flag, unblocking restores the fresh state, and resetting clears only the counter |
| Admin.SelectionSplits | main/admin.py:438-442 | the selected profiles split into those of non-superusers and those of superusers, so the blocked and the skipped add up to the selection |
| Admin.BlockUsers | main/admin.py:436-446 | every selected non-superuser profile is blocked at the given time, superusers' profiles keep their lockout state, the counts are the blocked and the skipped, and the names, `created_at` and `updated_at` are not touched |
| Admin.BlockMessage | main/admin.py:443-446 | the message starts with the blocked-users text; the number blocked reads back after it; when superusers were skipped the second part follows and their number reads back after it |
| Admin.UnblockMessage | main/admin.py:452 | the message is the unblocked-users text, followed by the number unblocked, which reads back |
| Admin.ResetMessage | main/admin.py:458 | the message is the reset-counter text, followed by the number of profiles, which reads back |
| Admin.UnblockUsers | main/admin.py:449-452 | every selected profile is unblocked, its block time removed and its counter cleared, and its names and timestamps are not touched; the count is the size of the selection |
| Admin.ResetLoginAttempts | main/admin.py:455-458 | only the counter of each selected profile is cleared: the block state, the names and the timestamps stay; the count is the size of the selection |
| Admin.ProfileReadonly | main/admin.py:469-475 | the profile form's read-only fields start with the declared ones and include `is_blocked` exactly when the profile's user is a superuser |
| Admin.InlineReadonly | main/admin.py:487-493 | the inline form's read-only fields start with the declared ones and include `is_blocked` exactly when the parent user is a superuser |
| Admin.ReadonlyAgree | main/admin.py:469-493 | the two forms agree on whether a profile's block flag can be edited |
| Admin.ProgressColor | main/admin.py:363-365 | the colour is green exactly at 100 % or more, orange exactly from 50 % to below 100 %, red exactly below 50 % |
| Admin.GoalShowsGreen | main/admin.py:363-365 | a goal with a positive target shows green exactly when its calculated amount reaches the target |
| Admin.ReadOnlyActions | main/admin.py:272-277 | the actions left are the inherited ones without `delete_selected`, each with its handler unchanged, and no others |
| Backup.EscapeRoundTrip | main/backup_utils.py:130-135 | reading back an escaped value gives the value: `NULL` for `None`, and for a text the quoted literal with its doubled quotes undone |
| Backup.ReadQuotedDoubled | main/backup_utils.py:134-135 | the body of a literal with its quotes doubled ends at the first single closing quote and reads back as the original text, whatever text follows |
| Backup.ReadBare | main/backup_utils.py:146-155 | the unquoted run and its rest put together are the input, and the run holds only characters of a bare number or flag |
| Backup.ReadValuesRoundTrip | main/backup_utils.py:145-160 | a non-empty list of well-formed values joined with `", "` reads back as the same list |
| Backup.CentsRoundTrip | main/backup_utils.py:194 | `str()` of a two-place amount, negative ones included, is a well-formed bare value that reads back as the same amount |
| Backup.IntRoundTrip | main/backup_utils.py:146 | `str()` of an id is a well-formed bare value that reads back as the same id |
| Backup.FlagReads | main/backup_utils.py:149 | `'1' if b else '0'` reads back as `b` |
| Backup.InsertStartsWithInsert | main/backup_utils.py:162 | every generated statement starts with `INSERT` |
| Backup.UserRoundTrip | main/backup_utils.py:138-162 | a user's row has one value per column, and its VALUES text reads back to the same user, id, password, last login (NULL or text), flags, names, email and join date included |
| Backup.ProfileRoundTrip | main/backup_utils.py:165-181 | a profile's row has one value per column and reads back to the profile's id, user id, three names and both timestamps |
| Backup.AccountRoundTrip | main/backup_utils.py:184-204 | an account's row has one value per column and reads back to the same account, its amount included |
| Backup.TransactionRoundTrip | main/backup_utils.py:207-229 | a transaction's row has one value per column and reads back to the same transaction, except that an account id of 0, being falsy, comes back as NULL |
| Backup.GoalRoundTrip | main/backup_utils.py:232-252 | a goal's row has one value per column and reads back to the same goal without its linked accounts, which the row does not hold |
| Backup.CategoryRoundTrip | main/backup_utils.py:255-273 | a budget category's row has one value per column and reads back to the same category |
| Backup.AppendInserts | main/backup_utils.py:22-27 | the loop appends exactly one INSERT per row, in the order of the rows, after the lines already there |
| Backup.AppendProfiles | main/backup_utils.py:31-37 | the loop over all users appends one profile INSERT for each user that has a profile, in user order, and passes over the others |
| Backup.ProfileInsertsStep | main/backup_utils.py:31-37 | one more user adds that user's profile line when the profile exists and nothing otherwise |
| Backup.BackupAll | main/backup_utils.py:10-66 | the full backup is the header comments, `BEGIN TRANSACTION;`, the users, the existing profiles, the accounts, transactions, goals and budget categories in that order, then `COMMIT;`, joined with line feeds; rows within a table are in store order, not the `Meta.ordering` of the queries (see "## Left out") |
| Backup.BackupByUser | main/backup_utils.py:69-127 | a user's backup is its header, the user's INSERT, the profile when there is one, then only that user's accounts, transactions, goals and categories, and `COMMIT;`; rows within a table are in store order (see "## Left out") |
| Backup.CountRendered | main/backup_utils.py:22-27 | a section written from a list of rows holds exactly one INSERT per row |
| Backup.ProfilesOfAllUsers | main/backup_utils.py:31-37 | when every user has a profile there is one profile line per user; when none has, there are none |
| Backup.FullBackupBrackets | main/backup_utils.py:14-20 | the full backup opens with its comments and `BEGIN TRANSACTION;` and no INSERT before it, and its last line is `COMMIT;` |
| Backup.FullBackupCount | main/backup_utils.py:10-66 | the full backup holds exactly one INSERT per user, per existing profile and per row of each of the four tables |
| Backup.ByUserCount | main/backup_utils.py:69-127 | a user's backup holds exactly one INSERT for the user, one for the profile when it exists, and one per row the user owns in each of the four tables |
| Backup.AllGeneratorsInsert | main/backup_utils.py:138-273 | every row generator, for every row, writes an `INSERT` statement |
| JsonIO.NoStructureErrors | main/json_utils.py:186-201 | there are no structure errors exactly when each of the four sections that is present is a list |
| JsonIO.ValidateJsonStructure | main/json_utils.py:166-203 | a parse failure, a value that is not an object, unknown keys (each listed once) and sections that are not lists are refused with their messages, in that order; the file is accepted exactly when none of these holds |
| JsonIO.ListKeys | main/json_utils.py:181-183 | the unknown keys are listed each exactly once |
| JsonIO.CheckSections | main/json_utils.py:188-198 | the four section checks add their messages in the order accounts, transactions, goals, budget categories |
| JsonIO.ParseCentsText | main/json_utils.py:56 | `Decimal()` of the text `str()` writes for a two-place amount reads back as that amount, negative ones included |
| JsonIO.DecimalOfCentsText | main/json_utils.py:224 | an exported amount, a text, reads back as the same amount on import |
| JsonIO.AccountRow | main/json_utils.py:55-65 | an account row is created exactly when it is an object with a readable amount and no null text column; the new account belongs to the importing user, takes the next id, carries the amount read and the name given or `Счет n`, and the import time |
| JsonIO.AccountLinkOwned | main/json_utils.py:93-97 | a transaction is linked only to one of the importing user's accounts, and the link fails exactly for a non-empty list or object id, which cannot be looked up |
| JsonIO.TransactionRow | main/json_utils.py:76-108 | a created transaction has an amount of at least one kopeck, belongs to the importing user, is linked only to one of that user's accounts and carries the import time; a readable amount of zero or less is refused with its message |
| JsonIO.GoalRow | main/json_utils.py:117-132 | a goal row is created exactly when it is an object, its target reads and is positive, its current amount reads and is not negative and its name is not null; the new goal belongs to the user, links no accounts and does not count only linked accounts |
| JsonIO.CategoryRow | main/json_utils.py:141-154 | a created category's name is not yet taken by the user; a row naming a category the user already has is refused with "already exists" |
| JsonIO.AccountImport | main/json_utils.py:53-69 | every account row is either created or yields one error line; the existing accounts stay in place, new accounts are appended for the user with consecutive ids, and nothing else in the store changes |
| JsonIO.TransactionImport | main/json_utils.py:72-112 | every transaction row is either created or yields one error line; new transactions are appended for the user with consecutive ids, each positive and linked only to the user's accounts, and nothing else changes |
| JsonIO.GoalImport | main/json_utils.py:115-136 | every goal row is either created or yields one error line; new goals are appended for the user with consecutive ids, each within the model's floors and without linked accounts |
| JsonIO.CategoryImport | main/json_utils.py:139-158 | every category row is either created or yields one error line; new categories are appended for the user with consecutive ids, and category names stay unique per user |
| JsonIO.AddFreshCategory | main/models.py:233 | adding a category whose name the user does not have keeps names unique per user |
| JsonIO.ImportAccounts | main/json_utils.py:53-69 | the loop over the account rows computes the store and counters of the section's specification |
| JsonIO.ImportTransactions | main/json_utils.py:72-112 | the loop over the transaction rows, with the user's account ids collected first, computes the section's specification |
| JsonIO.ImportGoals | main/json_utils.py:115-136 | the loop over the goal rows computes the section's specification |
| JsonIO.ImportCategories | main/json_utils.py:139-158 | the loop over the category rows computes the section's specification |
| JsonIO.ImportSpec | main/json_utils.py:36-163 | a parse failure is reported with empty results and changes nothing; a loaded value that is not an object raises exactly when one of the section names is "in" it and otherwise changes nothing |
| JsonIO.ImportUserData | main/json_utils.py:12-163 | the import runs the four sections in order on one store and returns the results of the specification |
| JsonIO.ImportAccounting | main/json_utils.py:52-163 | for an object, each section's created rows and error lines add up to its row count (zero for a skipped section), the id counter grows by the rows created, and every table keeps its old rows and grows by its section's created rows |
| JsonIO.ImportKeepsRules | main/json_utils.py:72-158 | an import keeps category names unique per user, and every new transaction is positive, the user's, and linked only to an account the user had before the transaction section ran; every new goal is within its floors and links no accounts |
| JsonIO.ValidatedSectionsImported | main/json_utils.py:53-139 | a file the structure check accepts has every present section imported as a list |
| JsonIO.AccountErrorsNameRows | main/json_utils.py:66-69 | every account error line is `Строка n: ...` for a row number n of the section |
| JsonIO.TransactionErrorsNameRows | main/json_utils.py:109-112 | every transaction error line names a row number of the section |
| JsonIO.GoalErrorsNameRows | main/json_utils.py:133-136 | every goal error line names a row number of the section |
| JsonIO.CategoryErrorsNameRows | main/json_utils.py:155-158 | every category error line names a row number of the section |
| JsonIO.RowMessageNumber | main/json_utils.py:67-69 | two error lines that read the same name the same row |
| JsonIO.ExportAccounts | main/json_utils.py:219-228 | the export has one entry per account, in order, each the account's exported object |
| JsonIO.ExportTransactions | main/json_utils.py:230-241 | the export has one entry per transaction, in order |
| JsonIO.ExportGoals | main/json_utils.py:243-251 | the export has one entry per goal, in order |
| JsonIO.ExportCategories | main/json_utils.py:253-261 | the export has one entry per budget category, in order |
| JsonIO.ExportHasUnknownKeys | main/json_utils.py:178-183 | an exported file carries exactly two keys the structure check does not allow, `user` and `exported_at`, so the check refuses it, although every section in it is a list |
| JsonIO.ExportGoalFields | main/json_utils.py:244-251 | an exported goal holds only its id, name, two amounts and creation time, and no linked accounts or linked-only flag |
| JsonIO.ReimportAccount | main/json_utils.py:53-65 | an exported account imported again gives the same account under the new id, user and time |
| JsonIO.ReimportAccounts | main/json_utils.py:53-69 | importing a user's exported accounts creates every one of them and reports no error |
| JsonIO.ReimportGoal | main/json_utils.py:115-132 | an exported goal imports again exactly when it is within its floors, and then as the same goal without its linked accounts and linked-only flag |
| JsonIO.ReimportTransaction | main/json_utils.py:72-108 | an exported transaction imports again exactly when its amount is positive, with the same name, amount, type and category, and linked to the same account only when that id is non-zero and one of the user's accounts |
| JsonIO.ReimportCategory | main/json_utils.py:139-154 | an exported category imports again as the same category unless the user already has one of that name, which is refused |
| ForecastViews.AnyInExists | forecast/views.py:273 | `any(danger in q for danger in words)` is true exactly when some word of the list occurs in the text |
| ForecastViews.SqlGuardRuns | forecast/views.py:266-278 | a posted query is executed exactly when its stripped, lower-cased text starts with `select` and contains none of the twelve danger substrings, and what runs is the stripped query as posted |
| ForecastViews.TimestampColumnsBlocked | forecast/views.py:270-274 | any query mentioning `created_at` or `updated_at` is refused, because both hold the danger words `create` and `update` |
| ForecastViews.FindCategory | forecast/views.py:164-168 | the lookup of `get_or_create` finds nothing exactly when the user has no category of that name, and otherwise an index of one of the user's categories with that name |
| ForecastViews.SaveCategory | forecast/views.py:151-187 | a request other than POST is answered "Invalid request method", and every failure leaves the store unchanged |
| ForecastViews.SaveCategoryUpsert | forecast/views.py:153-183 | a saved category has a non-empty stripped name and the budget and emoji posted; when the user already has that name exactly that category is overwritten in place and nothing is added, otherwise one new category is appended with the next id; no other table changes |
| ForecastViews.SaveCategoryKeepsNamesUnique | forecast/views.py:164-173 | saving a category keeps category names unique per user |
| ForecastViews.RenameFree | main/models.py:233 | overwriting a category by one of the same user and name keeps names unique per user |
| ForecastViews.Without | forecast/views.py:199-200 | the categories left are exactly those that are not the user's category with that id |
| ForecastViews.DeleteCategory | forecast/views.py:192-208 | a request other than POST is answered "Invalid request method", and every failure leaves the store unchanged |
| ForecastViews.DeleteCategoryEffect | forecast/views.py:194-204 | a delete succeeds only for a POST naming an id the user owns, and then removes exactly that user's category with that id and changes nothing else; "not found" changes nothing |
| ForecastViews.LinkLoop | forecast/views.py:232-234 | the linked ids are ids of existing accounts, each linked at most once |
| ForecastViews.LinkStep | forecast/views.py:233-234 | one `add` succeeds exactly when the id names an existing account, and then links it in addition to those already linked; a failing lookup leaves the links as they were |
| ForecastViews.LinkLoopExact | forecast/views.py:232-234 | when no lookup fails, every posted id names an existing account and the links are exactly the posted ids |
| ForecastViews.LinkLoopStops | forecast/views.py:233-237 | the first failing lookup ends the loop: the links made before it are all that remain |
| ForecastViews.ForeignAccountLinked | forecast/views.py:232-233 | as written, user 1 posting the id 7 of user 2's account gets the goal linked to it |
| ForecastViews.OwnLinksOnly | forecast/views.py:232-233 | corrected: with the lookup restricted to the user's accounts, every link is an account of that user, and an id of an account the user does not own stops the loop with "does not exist" |
| ForecastViews.IteratedObject | forecast/views.py:233 | looping over a posted `accounts` object walks its keys, each once as a text, and nothing else |
| ForecastViews.IteratedFails | forecast/views.py:233 | only the null, a boolean or a number cannot be looped over, and the error is Python's "'<type>' object is not iterable" |
| ForecastViews.ObjectKeysLinked | forecast/views.py:233-234 | posting `accounts` as an object links exactly the accounts its keys name when no lookup fails |
| ForecastViews.FindGoal | forecast/views.py:221-222 | the lookup finds an index of a goal with that id and owner, or nothing exactly when there is none |
| ForecastViews.SaveGoal | forecast/views.py:221-229 | the saved goal holds the posted name, target and linked-only flag; an existing goal keeps its id, owner, amount and links and stays in place, a new one is appended for the user with amount 0, no links and the next id; no other record changes |
| ForecastViews.SaveGoalForecastSpec | forecast/views.py:213-240 | a request other than POST is answered "POST only" and changes nothing |
| ForecastViews.SaveGoalForecast | forecast/views.py:215-240 | the view's updates, the save and then the clearing and re-adding of links, compute the store and reply of the specification |
| ForecastViews.Relink | forecast/views.py:232-234 | clearing the links and adding the posted ids one by one leaves the goal linked to what the loop specification gives, and reports its fault |
| ForecastViews.SaveGoalForecastLinks | forecast/views.py:219-236 | once the goal and its fields are read, the goal holds the posted name, target and linked-only flag and belongs to the user, even when a later account lookup fails; after a successful save its links are exactly the accounts the posted ids name (the keys when `accounts` is an object), `current_amount` is unchanged (0 for a new goal), an existing goal keeps its id and every other goal is unchanged, and a new goal is appended |
| ForecastViews.ApiGoalsEntries | forecast/views.py:113-125 | `api_goals` has one entry per goal of the user, in store order rather than by `-created_at` (see "## Left out"); `target` and `target_amount` both carry the target, and `accounts` the goal's linked ids |
| ForecastViews.IndexShape | forecast/views.py:16-73 | the page data has one entry per record of the user in each list, and each goal entry carries only id, name and the two amounts |
| ForecastViews.DayTextPrefix | forecast/views.py:43 | the date sent for a transaction is at most ten characters and a prefix of its ISO text |
| Calendar.DaysInMonth | main/static/js/script.js:857 | a month has 28 to 31 days, and February has 29 exactly in a leap year |
| Calendar.Weekday | main/static/js/script.js:888 | getDay gives 0 (Sunday) to 6 (Saturday) |
| Calendar.MonthStep | forecast/static/forecast/script.js:362 | day 0 of the next month is the last day of this month: the days before a month plus its length are the days before the next, and the twelve months fill the year |
| Calendar.DayNumberOrder | forecast/static/forecast/script.js:366-367 | comparing the day numbers of two valid dates compares the dates in calendar order, and equal numbers mean equal dates |
| Calendar.MonthsAdjoin | main/static/js/script.js:896 | the day after the last day of a month is the first day of the next month, across the end of the year too |
| Calendar.InstantOrder | main/static/js/script.js:914 | comparing two local instants compares their dates, then their times within the day |
| Calendar.InMonthIff | main/static/js/script.js:895-896 | an instant lies between 00:00 of the first day and 23:59:59.999 of the last day of a month exactly when it is dated in that month |
| Calendar.InYearIff | main/static/js/script.js:899-900 | an instant lies between 00:00 on 1 January and 23:59:59.999 on 31 December exactly when it is dated in that year |
| ForecastScript.FilterByRangeKeeps | forecast/static/forecast/script.js:185-194 | a transaction stays in the week, month or year window exactly when it is within that many days before now, and a transaction dated now or later is always kept |
| ForecastScript.FilterByRangeAppend | forecast/static/forecast/script.js:185-194 | filtering is done transaction by transaction: filtering two lists one after the other gives the two filtered lists one after the other |
| ForecastScript.RangesNest | forecast/static/forecast/script.js:185-194 | whatever the week window keeps, the month window keeps, and whatever the month window keeps, the year window keeps |
| ForecastScript.TallyBy | forecast/static/forecast/script.js:196-204 | the per-key totals built by the loop over the transactions equal the reference tally of amounts by key |
| ForecastScript.MonthlyData | forecast/static/forecast/script.js:196-204 | getMonthlyData: the per-month totals keyed by year-month equal the reference tally by month key |
| ForecastScript.ExpensesByCategory | forecast/static/forecast/script.js:216-217 | the per-category expense totals equal the reference tally by category |
| ForecastScript.TallySum | forecast/static/forecast/script.js:196-204 | read off along a list of distinct keys covering every transaction, the tallied totals add up to the total of all amounts |
| ForecastScript.SortBy | forecast/static/forecast/script.js:218 | sorting only reorders: the result is a permutation of the input |
| ForecastScript.SortBySorted | forecast/static/forecast/script.js:218 | with a total, transitive comparison the sorted list is in order |
| ForecastScript.SortByDistinct | forecast/static/forecast/script.js:256 | sorting a list without repeats gives a list without repeats |
| ForecastScript.LexLeIsOrder | forecast/static/forecast/script.js:256 | the default string comparison of Array.prototype.sort is total and transitive |
| ForecastScript.MonthKeys | forecast/static/forecast/script.js:256 | the set union of the month keys of income and expenses holds each key once and exactly the keys that occur in either list |
| ForecastScript.MonthLabelsAsWritten | forecast/static/forecast/script.js:256 | the month labels as written are in string order, without repeats, and exactly the months of either list |
| ForecastScript.LexicalMonthsOutOfOrder | forecast/static/forecast/script.js:256 | as written, an income in February 2024 and an expense in October 2024 give the labels "2024-10" before "2024-2" |
| ForecastScript.ChronologicalLabelsShape | forecast/static/forecast/script.js:256 | the corrected labels are in calendar order, without repeats, and exactly the months of either list |
| ForecastScript.ChronologicalLabelsInOrder | forecast/static/forecast/script.js:256 | with the corrected labels, a transaction from an earlier month has its label before that of a transaction from a later month |
| ForecastScript.SumMinus | forecast/static/forecast/script.js:257 | the balances add up to the total income less the total expenses |
| ForecastScript.RunningTotalsSums | forecast/static/forecast/script.js:283-284 | each point of the cumulative savings line is the sum of the balances up to and including that month |
| ForecastScript.RunningTotalsLast | forecast/static/forecast/script.js:283-284 | the last cumulative savings point is the sum of all balances |
| ForecastScript.AverageLevel | forecast/static/forecast/script.js:285 | the average savings level times the number of months equals the last cumulative point, and is 0 when there are no months |
| ForecastScript.SeriesOverSums | forecast/static/forecast/script.js:254-265 | over distinct labels covering every transaction, the income bars add up to all income, the expense bars to all expenses, the balance bars to the difference |
| ForecastScript.ChartSeriesTotals | forecast/static/forecast/script.js:254-285 | the charts, along the month labels sorted as text as the page sorts them, show all income and all expenses, have no labels exactly when there is no transaction, and end the savings line at income less expenses |
| ForecastScript.SortedCategoriesTotal | forecast/static/forecast/script.js:216-221 | the category pie is in descending order of amount and its values add up to all expenses |
| ForecastScript.SortedCategoriesNames | forecast/static/forecast/script.js:216-221 | the category pie names each category once, and exactly the categories that have an expense |
| ForecastMonth.WhereSplit | forecast/static/forecast/script.js:364-376 | the total of the transactions a filter keeps splits into the totals of two disjoint filters that together make it up |
| ForecastMonth.WhereNone | forecast/static/forecast/script.js:422-427 | a filter that keeps no transaction of the list gives the empty list |
| ForecastMonth.WindowAsWrittenIff | forecast/static/forecast/script.js:361-367 | as written, the window from 00:00 of the first day to 00:00 of the last day keeps a transaction exactly when it is dated in the month and not after midnight of its last day |
| ForecastMonth.MonthTotalAsWrittenLoses | forecast/static/forecast/script.js:361-376 | as written, the month total misses exactly the amounts dated on the last day after midnight |
| ForecastMonth.LastDayMissedAsWritten | forecast/static/forecast/script.js:361-376 | as written, an expense of 100 at 03:00 on 31 March 2024 is left out of the March total, which counts it once the window reaches the end of the day |
| ForecastMonth.WindowToDayEnd | forecast/static/forecast/script.js:361-367 | the corrected window, from 00:00 of the first day to the last millisecond of the last day, keeps exactly the transactions dated in the month |
| ForecastMonth.DaysPassed | forecast/static/forecast/script.js:389-391 | the days passed are today's day of the month capped at the length of the month |
| ForecastMonth.MonthlySummary | forecast/static/forecast/script.js:360-394 | the summary shows the income and expenses inside the page's month window, which are the calendar month's less what is stamped on the last day after midnight, their difference as the surplus, and the projection from the days passed |
| ForecastMonth.ProjectionScales | forecast/static/forecast/script.js:392-394 | the projection times the days passed is the surplus times the length of the month; with every day passed it is the surplus; with none passed it is 0 |
| ForecastMonth.ProjectionAtMonthEnd | forecast/static/forecast/script.js:389-394 | once the whole month has passed, the month-end forecast equals the surplus |
| ForecastMonth.BudgetProgress | forecast/static/forecast/script.js:429 | the budget progress is at most 100 and is 0 without a positive budget |
| ForecastMonth.BudgetProgressBounds | forecast/static/forecast/script.js:429 | for a positive budget the progress is not negative for a non-negative spend, is 100 exactly when the budget is spent, and is the spent share of the budget otherwise |
| ForecastMonth.StatusOf | forecast/static/forecast/script.js:435-443 | an over-budget status reports the positive amount spent beyond the budget |
| ForecastMonth.StatusBands | forecast/static/forecast/script.js:435-452 | no budget exactly when the budget is 0; over budget exactly when a budget is set and exceeded; for a positive budget near the limit exactly from 90 % up to the budget, and within the budget below 90 % |
| ForecastMonth.OverspentByHalf | forecast/static/forecast/script.js:439-442 | spending one and a half budgets shows the category over budget by half a budget |
| ForecastMonth.CategorySpentLoses | forecast/static/forecast/script.js:422-427 | a category's spend through the page's window is its calendar-month spend less what is stamped on the last day after midnight |
| ForecastMonth.LineOf | forecast/static/forecast/script.js:421-452 | each category line carries the spending in that category inside the page's month window (up to 00:00 of the last day), its progress and its status |
| ForecastMonth.CategoryLines | forecast/static/forecast/script.js:421 | one line per category, in order, with the spending of the page's month window |
| ForecastMonth.DefaultCategories | forecast/static/forecast/script.js:412-417 | with no categories the seven default names are used, each with budget 0 and its emoji |
| ForecastMonth.DefaultsHaveNoBudget | forecast/static/forecast/script.js:412-437 | every line of the default categories shows no budget |
| ForecastMonth.Remaining | forecast/static/forecast/script.js:615 | the remaining budget is never negative, is at least the budget less the spending, and is one of the two |
| ForecastMonth.BarsOf | forecast/static/forecast/script.js:604-617 | one budget bar per category, in order, with the spending of the page's month window |
| ForecastMonth.PutNames | forecast/static/forecast/script.js:612 | writing a bar into the chart data overwrites the bar of that name in place, or appends it when the name is new, and keeps names distinct |
| ForecastMonth.CollectCover | forecast/static/forecast/script.js:603-619 | the chart data holds each name once and exactly the names of the bars written into it |
| ForecastMonth.CollectLast | forecast/static/forecast/script.js:612-619 | every bar of the chart data is the last bar written under its name |
| ForecastMonth.BudgetChartShape | forecast/static/forecast/script.js:603-622 | the chart has one bar per category name, each that of the last category with that name (spending through the page's month window), with a remaining amount that is never negative |
| ForecastMonth.CategoryProgressData | forecast/static/forecast/script.js:603-622 | the loop over the categories builds the reference budget chart, with the page's month window |
| ForecastMonth.ThroughWholeMonth | forecast/static/forecast/script.js:693-717 | adding up the days of the month one by one gives the month total |
| ForecastMonth.PointsChain | forecast/static/forecast/script.js:693-724 | each day's balance is the previous day's balance plus that day's income less its expenses, and the last day's balance is the month's income less its expenses |
| ForecastMonth.CashflowForecast | forecast/static/forecast/script.js:689-724 | the loop builds one point per day of the month, each as specified, chained by the running balance and ending at the month's income less its expenses |
| ForecastGoals.FindAccount | forecast/static/forecast/script.js:499 | no account is found exactly when no account has that id; otherwise the first account with that id is found |
| ForecastGoals.AccountsSumAppend | forecast/static/forecast/script.js:497-507 | the sum of the amounts of two lists of accounts is the sum of their sums |
| ForecastGoals.ConnectedAppend | forecast/static/forecast/script.js:497-507 | linking one list of ids after another connects the accounts of the first list, then those of the second |
| ForecastGoals.UnknownIdsConnectNothing | forecast/static/forecast/script.js:497-507 | ids that find no account connect no account |
| ForecastGoals.AccumulatedLinkOne | forecast/static/forecast/script.js:492-513 | linking one more id adds the amount of the account it finds, nothing when it finds none; a goal with no links has the free money, or 0 when it uses only its accounts |
| ForecastGoals.GoalProgress | forecast/static/forecast/script.js:515 | the progress is at most 100, is 0 without a positive target, and is not negative for a non-negative amount |
| ForecastGoals.StatusOfGoal | forecast/static/forecast/script.js:516-541 | a goal shown as exceeded can be afforded |
| ForecastGoals.ShareBelowTarget | forecast/static/forecast/script.js:515 | below a positive target, the progress reaches a level exactly when the amount reaches that share of the target |
| ForecastGoals.GoalStatusBands | forecast/static/forecast/script.js:515-541 | exceeded exactly when the amount is over the target, reached exactly when it equals it, below a positive target almost there, halfway, some progress and in progress exactly at 80 %, 50 %, 25 % and below; with no target always in progress with progress 0 |
| ForecastGoals.LineOfGoal | forecast/static/forecast/script.js:493-541 | each goal line carries the accounts its ids connect, the accumulated amount, and the progress, affordability and status of that amount |
| ForecastGoals.GoalLines | forecast/static/forecast/script.js:485-493 | one line per goal, in order, each computed with the free money of all income less all expenses |
| ForecastPlanner.Present | forecast/static/forecast/script.js:421 | the categories shown are exactly those held in the list, skipping the holes that an assignment past the end leaves |
| ForecastPlanner.Assign | forecast/static/forecast/script.js:923 | assigning at an index stores the category there, pads with holes up to that index when it lies past the end, and changes no other position |
| ForecastPlanner.FindSlot | forecast/static/forecast/script.js:925 | the search finds the first category with the saved id or the chosen name, finds none when no category matches, and fails only when it reaches a hole first |
| ForecastPlanner.AddOpened | forecast/static/forecast/script.js:820-835 | corrected: opening the add dialog leaves no category marked as being edited |
| ForecastPlanner.Planner.constructor | forecast/static/forecast/script.js:409-411 | the page starts with the categories it was given, in order, and nothing being edited |
| ForecastPlanner.Planner.Edit | forecast/static/forecast/script.js:837-862 | the edit button marks the index as being edited when it holds a category, and otherwise changes nothing |
| ForecastPlanner.Planner.OpenAdd | forecast/static/forecast/script.js:820-835 | opening the add dialog keeps the categories and leaves the index being edited as it was, which is the stale index of the third Findings row |
| ForecastPlanner.Planner.SaveCategory | forecast/static/forecast/script.js:896-947 | the save handler changes the categories, the index being edited and the notice exactly as the save specification says |
| ForecastPlanner.Planner.DeleteCategory | forecast/static/forecast/script.js:864-894 | the delete handler changes the categories and the notice as the delete specification says, including the seven defaults that `renderCategories` shows once the last category is gone |
| ForecastPlanner.Planner.FillIfEmpty | forecast/static/forecast/script.js:409-419 | an empty list is filled from the page's categories, or from the defaults when the page has none, and nothing else changes |
| ForecastPlanner.SaveWithoutEffect | forecast/static/forecast/script.js:905-946 | with a missing name, a budget that is negative or does not parse, or a reply that is not a success, the categories stay as they were; bad input asks to fill all fields |
| ForecastPlanner.SaveWhileEditing | forecast/static/forecast/script.js:922-923 | a successful save while editing puts the saved category at the edited index, keeps every other position, and ends the edit |
| ForecastPlanner.SaveUpserts | forecast/static/forecast/script.js:924-931 | a successful new save replaces the first category with the same id or name, or appends the saved category when none matches |
| ForecastPlanner.HoleStopsSave | forecast/static/forecast/script.js:925-943 | a hole met before any match makes the search fail, and the save then changes nothing and reports a failed request |
| ForecastPlanner.DeleteRemovesOne | forecast/static/forecast/script.js:864-894 | the categories change exactly when the delete is confirmed, the index holds a stored category with an id and the server agrees; then that one is removed and the others keep their order, and removing the last one leaves the seven default categories |
| ForecastPlanner.FilledShape | forecast/static/forecast/script.js:409-419 | a list that is not empty is kept; an empty one becomes the page's categories, or the default categories when the page has none |
| ForecastPlanner.StaleIndexOverwrites | forecast/static/forecast/script.js:820-932 | as written, after the edit dialog for "еда" is opened and closed, adding "транспорт" overwrites "еда" instead of appending |
| ForecastPlanner.AddKeepsOthers | forecast/static/forecast/script.js:922-931 | corrected: after the add dialog opens, a save keeps every category that does not match the saved id or name |
| DashboardScript.PeriodOf | main/static/js/script.js:885-905 | a period name other than week, month and year falls to the default case |
| DashboardScript.WeekPosition | main/static/js/script.js:934 | the Monday-first slot of a day is one of 0 to 6 |
| DashboardScript.MonthDays | main/static/js/script.js:857 | a month has 28 to 31 days |
| DashboardScript.WeekStartIsMonday | main/static/js/script.js:886-889 | the week starts on the Monday of the current day's week, at most six days before it |
| DashboardScript.WeekDays | main/static/js/script.js:886-892 | the seven days from a Monday are exactly the days whose week starts on that Monday |
| DashboardScript.WeekRangeIff | main/static/js/script.js:886-915 | the week range keeps a transaction exactly when it falls in the current Monday-to-Sunday week |
| DashboardScript.MonthRangeIff | main/static/js/script.js:894-904 | the month range, which is also the default, keeps a transaction exactly when it falls in the current month |
| DashboardScript.YearRangeIff | main/static/js/script.js:898-901 | the year range keeps a transaction exactly when it falls in the current year |
| DashboardScript.RangeHoldsNow | main/static/js/script.js:881-908 | every range holds the current moment, and the week range spans seven whole days |
| DashboardScript.FilterAppend | main/static/js/script.js:910-915 | filtering keeps the transactions in their order: filtering two lists one after the other gives the filtered lists one after the other |
| DashboardScript.FilterOne | main/static/js/script.js:912-915 | one transaction is kept exactly when its date lies in the range, bounds included |
| DashboardScript.FilterKeeps | main/static/js/script.js:910-915 | a transaction is kept exactly when it is in the list and its date lies in the range |
| DashboardScript.BucketCount | main/static/js/script.js:928-958 | every chart has at least one slot |
| DashboardScript.BucketOf | main/static/js/script.js:933-967 | a transaction lands in one of the chart's slots or in none |
| DashboardScript.BucketsAre | main/static/js/script.js:928-968 | each slot of the chart holds the total of the transactions that land in it |
| DashboardScript.BucketsSum | main/static/js/script.js:928-968 | when every transaction lands in a slot, the slots add up to the total of the transactions |
| DashboardScript.KeptAreBucketed | main/static/js/script.js:921-967 | every transaction the period keeps lands in a slot of that period's chart |
| DashboardScript.ChartTotals | main/static/js/script.js:918-968 | the chart of a period adds up to the total of the transactions the period keeps |
| DashboardScript.WeekSlots | main/static/js/script.js:928-940 | in the week chart every kept transaction is dated and sits in the slot of its distance in days from the week's Monday |
| DashboardScript.Labels | main/static/js/script.js:928-956 | there is one label per slot of the chart |
| DashboardScript.FillBuckets | main/static/js/script.js:930-967 | the loop that fills the zeroed array adds up the reference slot totals |
| DashboardScript.UpdateChart | main/static/js/script.js:918-974 | the chart's labels and series are those of the period, equally long, each series adding up to the period's filtered total |
| DashboardScript.Divisor | main/static/js/script.js:851-860 | the divisor is 7 for a week, the month's days for a month, 12 for a year and 1 otherwise, so it is never 0 |
| DashboardScript.Average | main/static/js/script.js:862-863 | the average times the divisor is the total, and 0 for a divisor of 0 |
| DashboardScript.Averages | main/static/js/script.js:843-863 | the averages are the period's filtered income and expense totals over the period's divisor |
| DashboardScript.Round | main/static/js/script.js:809 | Math.round gives the nearest integer, a half rounded up |
| DashboardScript.ShareOfIncome | main/static/js/script.js:808-809 | the share of income saved is between 0 and 1 when the expenses are, 1 without expenses, 0 when all is spent and negative when more is spent |
| DashboardScript.SavingsPercentNearest | main/static/js/script.js:809 | with income, the percentage shown is within half a point of the exact share saved |
| DashboardScript.SavingsPercentBounds | main/static/js/script.js:809 | the percentage is 0 without income, 100 without expenses, 0 when all is spent, between 0 and 100 when part is spent, and not positive when more is spent |
| DashboardScript.EconomyOf | main/static/js/script.js:802-809 | the economy card shows the period's filtered income and expenses, their difference, and the rounded savings percentage |
| DashboardScript.JsTrim | main/static/js/script.js:241-242 | trimming removes whitespace from both ends: the result is empty exactly when the text is all whitespace, otherwise it starts and ends with a character that is not whitespace |
| DashboardScript.IncomeForm | main/static/js/script.js:167-186 | an income is sent exactly when the amount is a positive number, with the trimmed name or "Доход" and the category "доход"; otherwise the amount alert |
| DashboardScript.ExpenseForm | main/static/js/script.js:239-260 | an expense is sent exactly when the amount is positive and the trimmed name and category are not empty; otherwise the fill-all-fields alert |
| DashboardScript.AccountForm | main/static/js/script.js:315-328 | an account is sent exactly when the trimmed name is not empty and the amount is at least 0, with the type "other" when none is chosen; the name is checked first |
| DashboardScript.GoalForm | main/static/js/script.js:420-436 | a goal is sent exactly when the trimmed name is not empty, the target positive and the current amount at least 0, each failure with its own alert in that order |
| DashboardScript.Splice | main/static/js/script.js:1172 | removing at an index shifts every later entry down by one and keeps the earlier ones; an index past the end removes nothing; the account and goal deletes (lines 382, 1242) splice the same way |
| DashboardScript.TotalReplace | main/static/js/script.js:195-217 | replacing one transaction changes the total by the difference of the amounts |
| DashboardScript.TotalSplice | main/static/js/script.js:1172-1174 | removing one transaction takes its amount off the total |
| DashboardScript.OfKindSplits | main/static/js/script.js:108-122 | when every type is income or expense, every loaded transaction goes to exactly one of the two lists |
| DashboardScript.LoadConsistent | main/static/js/script.js:90-151 | after loading, the income and expense totals are the sums of their lists, and a failed load leaves everything empty |
| DashboardScript.AddIncomeEffect | main/static/js/script.js:167-237 | saving income keeps the totals the sums of the lists and touches only the income list: invalid input or a failed request changes nothing, a new income is appended, an edited one replaces its entry |
| DashboardScript.AddExpenseEffect | main/static/js/script.js:239-311 | the same for an expense, which is edited whenever the editing flag is not true |
| DashboardScript.SaveAccountEffect | main/static/js/script.js:315-371 | saving an account changes only the accounts: a new one is appended, an edited one takes the stored name and amount and keeps its id, and the others stay |
| DashboardScript.SaveGoalEffect | main/static/js/script.js:420-477 | saving a goal changes only the goals: a new one is appended, an edited one takes the stored amounts and keeps its id, and the others stay |
| DashboardScript.DeleteTransactionEffect | main/static/js/script.js:1158-1191 | a confirmed delete removes the viewed transaction from its own list and its amount from its total, when it has no id or the server request succeeds; with no viewed index no request is sent and entry 0 of the flagged list is removed; nothing else changes |
| DashboardScript.DeleteRemovesOne | main/static/js/script.js:373-391 | a confirmed, successful delete of an account, or of a goal from the goal view (lines 1231-1251), removes exactly the entry at its index; a goal delete with no viewed index sends nothing and removes entry 0; without confirmation nothing changes |
| DashboardScript.ClearEffect | main/static/js/script.js:1005-1078 | clearing keeps the totals consistent, clears exactly the ticked groups, changes nothing without confirmation or without a ticked box, and clears everything when all is ticked and every request succeeds |
| DashboardScript.Dashboard.constructor | main/static/js/script.js:80-86 | the page starts with zero totals, empty lists and no index being edited or viewed |
| DashboardScript.Dashboard.Load | main/static/js/script.js:90-151 | loading replaces the lists and totals as the load specification says |
| DashboardScript.Dashboard.OpenForNewTransaction | main/static/js/script.js:1430-1470 | the income and expense buttons clear the index being edited and change nothing else |
| DashboardScript.Dashboard.AddIncome | main/static/js/script.js:167-237 | the income handler changes the page and the notice as the income specification says |
| DashboardScript.Dashboard.AddExpense | main/static/js/script.js:239-311 | the expense handler changes the page and the notice as the expense specification says |
| DashboardScript.Dashboard.OpenAccountModal | main/static/js/script.js:393-416 | opening the account dialog for a new account clears the index being edited, and for an existing one sets it, and does nothing for an index without an account |
| DashboardScript.Dashboard.SaveAccount | main/static/js/script.js:315-371 | the account handler changes the page and the notice as the account specification says |
| DashboardScript.Dashboard.DeleteAccount | main/static/js/script.js:373-391 | the account delete changes the page and the notice as the delete specification says |
| DashboardScript.Dashboard.DeleteViewedAccount | main/static/js/script.js:1205-1215 | the delete button of the account view deletes the viewed account |
| DashboardScript.Dashboard.OpenGoalModal | main/static/js/script.js:479-498 | opening the goal dialog for a new goal clears the index being edited, and for an existing one sets it, and does nothing for an index without a goal |
| DashboardScript.Dashboard.SaveGoal | main/static/js/script.js:420-477 | the goal handler changes the page and the notice as the goal specification says |
| DashboardScript.Dashboard.ViewTransaction | main/static/js/script.js:502-509 | viewing a transaction remembers its index and list when the index holds one, and otherwise changes nothing |
| DashboardScript.Dashboard.ViewAccount | main/static/js/script.js:534-539 | viewing an account remembers its index when the index holds one |
| DashboardScript.Dashboard.ViewGoal | main/static/js/script.js:565-570 | viewing a goal remembers its index when the index holds one |
| DashboardScript.Dashboard.EditViewedTransaction | main/static/js/script.js:1115-1152 | the edit button of the transaction view marks the viewed transaction as being edited, as an income exactly when it was viewed as one |
| DashboardScript.Dashboard.DeleteViewedTransaction | main/static/js/script.js:1156-1192 | the delete button of the transaction view changes the page as the transaction delete specification says |
| DashboardScript.Dashboard.DeleteViewedGoal | main/static/js/script.js:1229-1252 | the delete button of the goal view changes the page as the goal delete specification says |
| DashboardScript.Dashboard.ClearSelected | main/static/js/script.js:1005-1078 | the clear-data handler changes the page and the notice as the clear specification says |
| DashboardScript.EscapeHtml | main/static/js/script.js:7-10 | escaping never shortens the text and leaves no bracket or quote in it |
| DashboardScript.EscapeShownAsWritten | main/static/js/script.js:7-10 | placed as the text of an element (lines 639, 672, 771), the escaped name is shown as the name itself, under the HTML tokenizer's rules for character references, whenever the name has no NUL or CR, no `;` right after a replaced character, no digit right after `'`, and no rest of a longer reference name after `<` or `>` |
| DashboardScript.AmpSemicolonMisread | main/static/js/script.js:7-10 | the name `&;` is escaped to `&amp;`, which the page shows as `&`: the fourth Findings row |
| DashboardScript.QuoteDigitMisread | main/static/js/script.js:7-10 | the name `'5` is escaped to `&#395`, which the page shows as U+018B, because the decimal reference takes every following digit |
| DashboardScript.EscapeHtmlTerminated | main/static/js/script.js:7-10 | the intended escape, with every entity closed by `;`, never shortens the text and leaves no bracket or quote in it |
| DashboardScript.EscapeTerminatedRoundTrip | main/static/js/script.js:7-10 | with closed entities the page shows every name without NUL and CR exactly as it is |

## Left out

- Rendering: DOM updates, modals, event wiring, `setTimeout` and every Chart.js call are out. Only the data arrays computed before they reach a chart are modelled.
- Display formatting: `formatNumber`, `toLocaleString`, `adjustFontSize`, the emoji tables and the status texts are out, because they only format output for display. Statuses are datatype values.
- The goal view's progress on the main page (main/static/js/script.js:576) is out, because it only feeds a chart.
- The network: `fetch` and `apiFetch` are out. Each server reply is a parameter of the handler that awaits it.
- Main-page load failures: in `loadDataFromServer` a failed load of any of the three lists is one failed answer.
- Clearing data: for `clearSelectedData` the only thing modelled about its requests is which group failed first.
- Parsing browser input: `parseFloat` of a form field is out. It is an `Option<real>` that is `None` for `NaN`.
- `new Date(...)` of a server date is out. It is a local date and time, or `None` for an invalid date.
- Time zones and daylight saving are out: every local day is 86 400 000 ms long. A date-only text that `new Date` reads as UTC midnight is taken as the local time it lands on.
- Browser numbers are `real`, not IEEE doubles: rounding error and `NaN` arithmetic (`t.amount || 0`) are not modelled.
- Key order of JavaScript objects: the model takes insertion order. Month keys such as "2024-2" follow it. A category named like an array index ("10", "2024") does not: `Object.keys` lists such keys first, in numeric order, and the model does not, so the doughnut's ties and the budget chart's bars can come in another order for those names.
- ForecastScript.ExpensesByCategory: category names that `Object.prototype` already holds are not modelled. The page tallies in a plain object (forecast/static/forecast/script.js:217), so for `constructor`, `toString`, `valueOf`, `hasOwnProperty` and the other inherited names the first read gives the inherited function and the total becomes a string such as `"function Object() { [native code] }100"`. For `__proto__` the read gives `Object.prototype`, and assigning the resulting string is ignored, so that category has no entry. The model gives the plain sum for every name.
- ForecastScript.SortedCategoriesTotal: for the inherited names above the page's doughnut values are strings, the sort at script.js:218 compares `NaN`, and `totalExp` (line 221) becomes a string. The model's values always add up to all expenses.
- ForecastScript.SortedCategoriesNames: a `__proto__` category is missing from the page's `Object.entries` (script.js:218). The model lists it like any other name.
- ForecastMonth.Put: `categoryData[cat.name] = {...}` (script.js:612) with the name `__proto__` replaces the object's prototype instead of adding a key. The model adds the bar like any other.
- ForecastMonth.BudgetChartShape: for the same reason a category named `__proto__` has no bar on the page's budget chart (script.js:619-622). The model's chart has one bar per category name, that one included.
- String comparison in `Array.prototype.sort` is by UTF-16 code unit. The model compares `char`s, which is the same for the digits and `-` of month keys.
- `today` and `now` come from the clock. They are parameters.
- Goals without a target: the forecast page reads `goal.target` for a goal delivered without one, and every comparison is then false. The model takes this as `None`, so the goal is in progress with progress 0.
- Whole-list exports and imports are out (`exportAllData`, `exportJsonData`, `importJsonDataFromFile` in main/static/js/script.js), because they are file and network plumbing.
- Saving money to local storage on the forecast page is out.
- The Django ORM is out. The tables are a `Store` value, and `objects.create` is modelled as appending a row. It bypasses field validators, as the ORM does.
- `queryset.update` in the admin actions does not touch `updated_at`, so the model does not either.
- `authenticate` and password hashing are out. Whether the password matches is an input.
- AuthViews.Register: the NFKC normalisation `create_user` applies to the name is not computed. Its result is the parameter `stored`, required only to equal the name for ASCII names. The `ValueError` for an empty name and the unique-constraint error for a taken NFKC form are the outcome `CreateFailed`; the exception page the view then gives is out.
- A user without a profile makes `login` raise. The model has a `MissingProfile` outcome for it.
- `json.loads` is out. The import starts from a `Json` value or a parse failure.
- `datetime.fromisoformat` and the clock are parameters of the environment `Env`.
- `Decimal(str(...))` of a JSON number is out. A JSON number holds whole kopecks.
- JsonIO.ParseCentsText: reads only plain decimal texts with at most two places. A text with more places, an exponent, `NaN`, `Infinity` or underscores is unreadable in the model, whereas `Decimal` accepts some of them and the column rounds.
- `Decimal(str(i))` of an integer amount is taken as `i * 100` kopecks.
- `random.shuffle` in `generate_captcha_sequence` (main/captcha_utils.py:8-15) is out, because it depends on randomness.
- `get_captcha_pieces` is not defined in main/captcha_utils.py (see "## Findings"). `AuthViews.Login` and `AuthViews.Register` model the two views as if that import succeeded. The pieces it would render are out, because they are only rendering.
- Names that are not strings are out: `validate_single_name` reports them as empty, and the model takes every name to be a string or `None`.
- `emulator_check_ajax` is out, because it makes an HTTP call to an outside service.
- `execute_sql_query` and the queries that `sql_panel_view` runs are out. Only its guard is modelled.
- These forecast endpoints are out, because they only read and serialise records like `api_goals` does: `api_accounts`, `api_transactions`, `api_budget_categories` and `api_delete_goal_forecast` (forecast/views.py:77-108, 130-146, 243-257).
- Lower: `Text.Lower` lowers ASCII letters only, while Python's `lower()` also lowers other capitals ('Д' to 'д', 'İ' to 'i' and a combining dot). Its one use is the SQL guard, whose verdict is the same: the only non-ASCII capitals that lower to ASCII are the Kelvin sign (to 'k') and 'İ' (to 'i' followed by a combining dot), no danger word and not `select` contains 'k', and no danger word ends in 'i'. This argument is not proved in Dafny.
- AccountsOf: the model keeps the user's accounts in store order, while Django orders them by `-created_at` (main/models.py:50). Row order is not modelled for any table; between equal keys it is up to the database anyway.
- TransactionsOf: rows in store order, not by `-date` (main/models.py:122).
- GoalsOf: rows in store order, not by `-created_at` (main/models.py:172).
- CategoriesOf: rows in store order, not by `name` (main/models.py:229).
- BackupAll: the INSERTs of each table come in store order, while the queries of main/backup_utils.py:41-59 follow each model's `Meta.ordering`. The set and count of rows are as the source has them.
- BackupByUser: the INSERTs of each table come in store order, not in the `Meta.ordering` of the related managers (main/backup_utils.py:99-120).
- ExportUserData: the exported lists come in store order, not in `Meta.ordering` (main/json_utils.py:220-254).
- ApiGoalsEntries: `api_goals` entries come in store order, not by `-created_at` (forecast/views.py:114); the same holds for ApiGoals and for the four lists of `Index` (forecast/views.py:20-23).
- The tokenizer's character references are modelled only as far as the escaped text needs them. `DashboardScript.BrowserText` is `None` (not modelled) for hexadecimal references, for decimal references to 0x80-0x9F (mapped through the windows-1252 table), for named references other than `amp`, `lt`, `gt` and `quot`, and after `&lt` or `&gt` when a longer name of the table follows. Attribute values, where the rules differ, are not modelled, because `escapeHtml` only writes element text.
- `escapeHtml(str)` for a non-string `str` (`String(str)`) is out: names are strings.
- `has_add_permission` and `has_delete_permission` of the admin classes are out, because they are constant answers. The read-only mixin is modelled through its actions.
- The profile admin form can still toggle `is_blocked` for a non-superuser. This edit path is out.
- URL routing, migrations, templates and settings are out. So are the management of sessions and CSRF.

Behaviours of the source that the model keeps as they are:
- The `index` view's goals carry no target and no linked accounts.
- Neither the SQL backup nor the JSON export carries goal links, so a re-import of a goal has none.
- `register` does not call `validate_fio`.

## Findings

| source | as written | input that shows it | evidently intended | confidence | as-written member | corrected member |
|---|---|---|---|---|---|---|
| forecast/static/forecast/script.js:256 | the month labels are the income and expense month keys sorted as strings, and the keys are not zero-padded | an income in February 2024 and an expense in October 2024 give the labels "2024-10", "2024-2": October is charted before February | months in calendar order, as `ForecastScript.ChronologicalMonthLabels` sorts them; `ForecastScript.ChartSeries` keeps the labels as written | not executed | ForecastScript.LexicalMonthsOutOfOrder | ForecastScript.ChronologicalLabelsInOrder |
| forecast/static/forecast/script.js:361-375 | the month window ends at `new Date(y, m + 1, 0)`, 00:00 of the last day of the month, so the summary and the budget figures (lines 406-407, 600-601) drop whatever is dated later that day | an expense of 100 dated "2024-03-31", which `new Date` reads as UTC midnight, i.e. 03:00 local in UTC+3, is missing from the March total | the window runs to the end of the last day, as in `ForecastMonth.MonthTotal`; the summary, category lines and budget chart keep the window as written | not executed | ForecastMonth.LastDayMissedAsWritten | ForecastMonth.WindowToDayEnd |
| forecast/static/forecast/script.js:820-932 | the add button does not clear `dataset.editingIndex`, which only a successful save deletes (line 932) | open the edit dialog of "еда", close it without saving, then add "транспорт": the save overwrites "еда" at index 0 | adding never overwrites a category the user did not pick: `ForecastPlanner.AddOpened` clears the index; `Planner.OpenAdd` keeps the button as written | not executed | ForecastPlanner.StaleIndexOverwrites | ForecastPlanner.AddKeepsOthers |
| main/static/js/script.js:7-10 | `escapeHtml` writes `&amp`, `&lt`, `&gt`, `&quot` and `&#39` without the closing `;`, so the next character of the name can join the reference: a `;` is taken into it, digits after `&#39` continue the number, and `<` or `>` before the rest of a longer name become that character | the account name `&;` is shown as `&`, and the name `'5` as `Ƌ` (U+018B) | every name is shown as typed: entities closed by `;`, as in `DashboardScript.EscapeHtmlTerminated`; the page's `EscapeHtml` stays as written | not executed | DashboardScript.AmpSemicolonMisread | DashboardScript.EscapeTerminatedRoundTrip |
| forecast/views.py:233 | `Account.objects.get(id=acc_id)` looks the account up among all users' accounts, while the goal itself is fetched with `user=request.user` (line 221) | user 1 saves a goal posting `accounts: [7]`, where account 7 belongs to user 2: the goal is linked to it, and that account's amount enters the goal's `calculated_amount` (main/models.py:196) | links only to the user's own accounts, as `ForecastViews.OwnLinksOnly` proves for the lookup restricted by `OwnAccounts`; `SaveGoalForecast` keeps the lookup as written | not executed | ForecastViews.ForeignAccountLinked | ForecastViews.OwnLinksOnly |
| main/views.py:12 | `from .captcha_utils import get_captcha_pieces`, but main/captcha_utils.py defines only `generate_captcha_sequence`, `verify_captcha_answer`, `validate_fio` and `sanitize_fio` | importing `main.views` (as URL routing does for the login and registration pages) raises `ImportError`, so neither the `login` nor the `register` view runs | the captcha module also defines `get_captcha_pieces`, which every render of the two views calls | not executed | AuthViews.ViewsImportFails | AuthViews.ViewsImportCorrected |
