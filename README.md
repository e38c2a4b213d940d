# Fitness app core: payments, profiles, workouts and favorites in Dafny

A Dafny model of the decision and record-update rules in the Django fitness app behind a
Telegram Mini App. It covers:

- the **Click merchant callbacks** (`apps/click_merchant.py`): the signature over the callback
  fields, the read-only PREPARE check with its error codes -1, -5, -4, -2 and 0, and the
  COMPLETE step. COMPLETE settles a payment (or fails it with -9) and extends or opens the
  payer's 30-day subscription.
- the **payment records** (`apps/models/payments.py`): the defaults of `Subscription` and
  `Payment`, `days_remaining`, `mark_as_completed` and `mark_as_failed`.
- the **profile records** (`apps/models/users.py`): `age`, `is_subscribed`,
  `days_until_renewal`, the declared defaults, unique telegram ids and unique
  (user, motivation) rows.
- the **profile views** (`apps/views/users.py`): the questionnaire that registers a Telegram
  user, the whitelisted profile form, the language switch, the subscription cancel and the
  Telegram login routing.
- the **Mini App API** (`apps/views/api_views.py`): `telegram_auth`, the per-step onboarding
  writes and `complete_onboarding`.
- the **workout statistics** (`apps/models/my_trainer.py`, `apps/views/workouts.py`): the
  "H:MM" duration, the bounded 100-day streak walk, the dashboard's integer statistics and its
  ten most recent sessions, and the read-once workout summary.
- the **exercise pages** (`apps/views/exercises.py`): instruction texts flattened into
  stripped, non-blank lines, and the favorite flags on the detail and muscle pages.
- the **favorites** (`apps/models/favorites.py`, `apps/views/favorite.py`): the uniqueness
  and delete rules of the two tables, the favorites list and the removal of one favorite.

Three views cannot run as written. Their members model the evidently intended behaviour, and
the section on what is left out repeats what each does instead:

- PREPARE reads `payment.amount`, but `Payment` declares no `amount` field
  (apps/models/payments.py:52-62). Every found, unpaid payment therefore raises
  `AttributeError` at apps/click_merchant.py:102, and the answers -2 and 0 never occur.
- COMPLETE imports `Subscription` from `users.models` (apps/click_merchant.py:131), but no
  `users` app is installed (root/settings.py:18-31). Every callback that passes the signature
  check raises there, so the answers -5 and -9 and the settling step never occur.
- The muscle page filters on `primary_body_part` (apps/views/exercises.py:27), a field
  `Exercise` does not declare. The query raises `FieldError` and the page never renders.

How the model is laid out:

- Tables are classes holding maps keyed by primary key: `PaymentDb`, `ProfileDb` and
  `FavoriteDb`.
- Rows that the views update field by field are classes: `Payment`, `Subscription` and
  `UserProfile`. Their `State()` snapshot lets a contract say "only this field changes" as
  `State() == old(State()).(field := value)`.
- Rows that are only read or replaced are datatypes.
- Datetimes are integer seconds. Date fields are day numbers; `age` uses a year/month/day
  triple. Decimals are exact `real`s. "Now" and "today" are parameters.
- The MD5 digest is an uninterpreted function carried by the merchant configuration.
- The Click callback's text fields go through Python's own rules: `int(...)` as `Common.PyInt`
  (its own whitespace set `IsIntSpace`, one sign, digit groups with single underscores) and
  `Decimal(...)` as `Common.PyDecimal` (the `str.isspace` whitespace stripped first, then the
  underscores dropped; sign, exponent, infinities and NaNs). A JSON body reaches the model
  decoded. Its `int(...)` and `float(...)` become a `Parsed` outcome, so
  each conversion error is a modelled error path.
- An exception a view does not catch is a `Raised(name)` reply.

Modules, one per file: `Common` (option, parsing and rendering of numbers), `Sorting` (a
stable sort standing in for `order_by`), `Payments`, `Profiles`, `ClickMerchant`, `UserViews`,
`ApiViews`, `MyTrainer`, `Workouts`, `Exercises`, `Favorites` and `FavoriteViews`.

## Model

| member | source | states |
|---|---|---|
| Common.NatToString | apps/views/users.py:57 | `str(n)` of a natural number is a non-empty digit string without a leading zero |
| Common.IntToString | apps/views/users.py:57 | `str(n)` of any integer is non-empty and starts with '-' exactly when n is negative |
| Common.Strip | apps/views/exercises.py:66 | `strip()` removes exactly the leading and trailing whitespace: the result is a slice with whitespace around it and non-whitespace at both ends, and is empty exactly for blank text |
| Common.StripIdempotent | apps/views/exercises.py:66-68 | stripping twice is stripping once |
| Common.WithoutUnderscores | apps/click_merchant.py:102 | the result holds no underscore; digits and underscores leave only digits; text without underscores is unchanged |
| Common.PyIntOfIntToString | apps/click_merchant.py:87 | `int(str(n)) == n` for every integer of at most 4300 digits, negative ones included |
| Common.PyIntRefusesLongDigits | apps/click_merchant.py:87 | `int()` raises ValueError for a digit string longer than 4300 digits |
| Common.NatToStringBounded | apps/click_merchant.py:87 | a number below 10^k renders in at most k digits |
| Common.BigIntDigits | root/settings.py:102 | a 64-bit key renders in at most 19 digits |
| Common.IntStrip | apps/click_merchant.py:87 | what `int()` strips leaves no `int()` whitespace at either end and is never longer than the text |
| Common.IntSpaceIsSpace | apps/click_merchant.py:87 | the whitespace `int()` skips is `str.isspace` whitespace, and the two differ exactly on the separators U+001C to U+001F |
| Common.PyIntIgnoresPadding | apps/click_merchant.py:87 | the whitespace `int()` skips around the id never changes what it reads |
| Common.PyIntPadded | apps/click_merchant.py:87 | a space before a digit string is ignored: `int(" " + d)` is the value of the digits d |
| Common.PyIntRefusesSeparator | apps/click_merchant.py:87 | `"\x1c5".strip()` is "5", but `int("\x1c5")` raises ValueError |
| Common.PyIntPlus | apps/click_merchant.py:87 | `int("+5")` is 5 |
| Common.PyIntMinus | apps/click_merchant.py:87 | `int("-1")` is -1 |
| Common.PyIntGrouped | apps/click_merchant.py:87 | `int("1_000")` is 1000 |
| Common.PyIntRefusesDoubleUnderscore | apps/click_merchant.py:87 | `int("1__000")` raises ValueError |
| Common.PyIntRefusesPoint | apps/click_merchant.py:87 | `int("5.0")` raises ValueError |
| Common.NatToStringInjective | apps/views/users.py:57 | distinct numbers render differently |
| Common.PyDecimalOfNatToString | apps/click_merchant.py:102 | `Decimal(str(n))` is the finite number n, so a whole amount compares equal to its stored Decimal |
| Common.PyDecimalExponent | apps/click_merchant.py:102 | `Decimal("67e3")` is 67000 |
| Common.PyDecimalNaN | apps/click_merchant.py:102 | `Decimal("NaN")` is a quiet NaN |
| Common.PyDecimalInfinity | apps/click_merchant.py:102 | `Decimal("-Inf")` is negative infinity |
| Common.PyDecimalRefusesUnderscoreBeforeSpace | apps/click_merchant.py:102 | whitespace is stripped before underscores are dropped, so `Decimal("_ 5")` raises InvalidOperation |
| Sorting.SortBy | apps/models/favorites.py:33 | an ordered query returns a permutation of the rows it orders |
| Sorting.SortBySorted | apps/models/favorites.py:33 | for a total preorder, the ordered query is sorted by it |
| Sorting.PermutationKeepsDistinct | apps/models/exercises.py:81 | reordering rows that are distinct on a unique key keeps them distinct |
| Sorting.StrLeTotalPreorder | apps/views/exercises.py:20 | Python's code-point order on names is total and transitive, so ordering by name is well defined |
| Payments.Subscription.constructor | apps/models/payments.py:29-35 | a new subscription starts now, is active and auto-renewing, and costs 67000.00 |
| Payments.Subscription.DaysRemaining | apps/models/payments.py:45-49 | 0 for an inactive subscription; otherwise d whole days with d·86400 ≤ max(0, end − now) < (d+1)·86400, so never negative |
| Payments.Payment.constructor | apps/models/payments.py:52-62 | a new payment is pending, manual, at attempt 0, with empty metadata and no subscription, transaction ids or completion time |
| Payments.Payment.MarkAsCompleted | apps/models/payments.py:68-71 | status becomes completed and `completed_at` is stamped now; no other field changes |
| Payments.Payment.MarkAsFailed | apps/models/payments.py:73-75 | status becomes failed; `completed_at` and every other field are kept |
| Payments.PaymentDb.constructor | apps/models/payments.py:58 | the empty tables satisfy the invariant, including unique `transaction_id` and 64-bit primary keys |
| Profiles.AgeOn | apps/models/users.py:115-118 | the age counts the birthdays already reached: the age-th anniversary is on or before today and the next one is after |
| Profiles.AgeOnUnique | apps/models/users.py:115-118 | any count with that property is the age, so the characterisation fixes it |
| Profiles.UserProfile.Age | apps/models/users.py:113-119 | None exactly when there is no birth date; otherwise the birthday count above |
| Profiles.UserProfile.constructor | apps/models/users.py:64-102 | a created profile holds exactly the given field values |
| Profiles.DaysUntilRenewalOn | apps/models/users.py:133-138 | 0 without an end date, otherwise max(0, end − today) |
| Profiles.RenewalAgreesWithSubscription | apps/models/users.py:129-138 | days remain only while subscribed; while subscribed they are exactly end − today; otherwise 0 |
| Profiles.WithoutUser | apps/views/users.py:107 | deleting a user's motivations keeps exactly the other users' rows |
| Profiles.WithoutUserNoDuplicates | apps/models/users.py:148 | the delete keeps the (user, motivation) rows unique |
| Profiles.RowsFor | apps/views/users.py:109-114 | one row per listed value, in list order, all for the user |
| Profiles.FirstRepeat | apps/models/users.py:148 | the longest prefix of the values whose rows can be created before one clashes with an earlier row |
| Profiles.FirstRepeatNoDuplicates | apps/models/users.py:148 | every row is created exactly when no value repeats |
| Profiles.ProfileDb.constructor | apps/models/users.py:64-69 | the empty tables satisfy the invariant |
| Profiles.ProfileDb.CreateUser | apps/views/users.py:56-62 | a free username gets a new account under a fresh key; nothing else changes |
| Profiles.ProfileDb.CreateProfile | apps/views/users.py:71-77 | a user without a profile gets one holding the given fields, and telegram ids stay unique |
| Profiles.ProfileDb.ReplaceMotivations | apps/views/users.py:107-114 | the user's rows are replaced by one row per value; a repeated value raises (`ok` false) after the rows before it are created |
| Profiles.CreateRows | apps/views/users.py:110-114 | the create loop appends the rows in order and stops at the first row that already exists |
| Profiles.AtMostOneTelegramMatch | apps/models/users.py:69 | a telegram id matches at most one profile |
| Profiles.AtMostOneProfile | apps/models/users.py:66 | a user owns at most one profile |
| ClickMerchant.SignInputLayout | apps/click_merchant.py:25-33 | the signed text is the first two fields, then the secret, then the last four fields |
| ClickMerchant.AbsentFieldSignsAsEmpty | apps/click_merchant.py:25-33 | a missing field signs like an empty one |
| ClickMerchant.VerifySignIgnoresUnsignedKeys | apps/click_merchant.py:62-68 | only the six signed fields and `sign_string` decide the check, so `error` is not covered by the signature |
| ClickMerchant.LookupPayment | apps/click_merchant.py:85-92 | found exactly when `int()` accepts the id and its value names a row, and then the row is that value; the id is a ValueError exactly when `int()` refuses it |
| ClickMerchant.NegativeIdNotFound | apps/click_merchant.py:85-92 | a negative id finds no payment |
| ClickMerchant.LookupPadded | apps/click_merchant.py:85-92 | a payment's 64-bit id with a space before it still finds the payment |
| ClickMerchant.LookupSeparator | apps/click_merchant.py:85-92 | an id led by the separator U+001C raises ValueError, as `int()` does not skip it |
| ClickMerchant.LookupLongDigits | apps/click_merchant.py:85-92 | an id of more than 4300 digits raises ValueError before any row is read |
| ClickMerchant.LookupPlusSigned | apps/click_merchant.py:85-92 | "+5" finds payment 5 |
| ClickMerchant.LookupMinusOne | apps/click_merchant.py:85-92 | "-1" converts but finds no payment |
| ClickMerchant.CallbackAmount | apps/click_merchant.py:102 | an absent amount fails to convert; a present one is `Decimal()` of its text |
| ClickMerchant.Differs | apps/click_merchant.py:102 | `!=` raises exactly for a signalling NaN and is false exactly for the finite stored amount, so a quiet NaN or an infinity always differs |
| ClickMerchant.Prepare | apps/click_merchant.py:70-115 | -1, -5, -4, -2 and acceptance each hold exactly when their check is the first to fail (or none fails); an id `int()` refuses raises ValueError, and an amount `Decimal()` refuses or a signalling NaN raises InvalidOperation; acceptance echoes both transaction ids and names the payment the id converts to; only reads the tables |
| ClickMerchant.IdLooksUp | apps/click_merchant.py:85-92 | a payment's rendered 64-bit id finds it |
| ClickMerchant.PrepareWholeAmount | apps/click_merchant.py:102-115 | a pending payment of a whole amount is accepted for that amount written out and refused with -2 for any other whole amount |
| ClickMerchant.PrepareExponentAmount | apps/click_merchant.py:102-115 | "67e3" pays a pending 67000.00 |
| ClickMerchant.PrepareNaNAmount | apps/click_merchant.py:102-107 | "NaN" is refused with -2, without raising |
| ClickMerchant.PrepareUnderscoreBeforeSpace | apps/click_merchant.py:102-107 | an amount "_ 5" raises InvalidOperation for a pending payment, because `Decimal()` strips before it drops underscores |
| ClickMerchant.ExtendedEnd | apps/click_merchant.py:159-162 | the new end is max(end, now) + 30 days, so it is after the old end and at least a month from now |
| ClickMerchant.ExtendTwice | apps/click_merchant.py:146-164 | COMPLETE does not check the payment status, so a repeated success extends by another month |
| ClickMerchant.RenewSubscription | apps/click_merchant.py:154-174 | the payer's subscription is extended and reactivated, or a new active, auto-renewing one runs a month from now at the paid price; no other subscription changes |
| ClickMerchant.StoreCompletion | apps/click_merchant.py:146-151 | the payment becomes completed and takes the transaction id, the time and the callback fields; nothing else changes |
| ClickMerchant.Settle | apps/click_merchant.py:146-177 | the stored completion plus a link to the renewed subscription |
| ClickMerchant.Complete | apps/click_merchant.py:117-194 | sign, then lookup; `error == "0"` settles and renews, a clashing transaction id raises with nothing stored, and any other value fails the payment with -9 and leaves subscriptions untouched |
| UserViews.TelegramLoginInjective | apps/views/users.py:56-57 | distinct telegram ids get distinct account names |
| UserViews.Answers | apps/views/users.py:79-88 | the answers overwrite the telegram id and username, name, gender, weight and onboarding answers, set onboarding completed, and keep the settings and subscription |
| UserViews.QuestionnaireDefaults | apps/views/users.py:83-88 | missing answers store male, beginner, build_body, 3 days and 63 kg, with onboarding completed |
| UserViews.DaysAnswer | apps/views/users.py:86 | a missing value is 3; the conversion fails exactly on an invalid value |
| UserViews.WeightAnswer | apps/views/users.py:87 | a missing value is 63; the conversion fails exactly on an invalid value |
| UserViews.GetOrCreateUser | apps/views/users.py:56-68 | the account is created exactly when the name is free; either way it holds the given names |
| UserViews.GetOrCreateProfile | apps/views/users.py:71-77 | the user's existing profile, or a new one with the defaults exactly when there is none |
| UserViews.StoreAnswers | apps/views/users.py:80-88 | the profile's new state is the answers applied to the old one |
| UserViews.SaveAnswers | apps/views/users.py:80-104 | the save succeeds exactly when no text answer is null and the days fit the 32-bit column; then the profile holds the answers as in StoreAnswers, otherwise it is unchanged; telegram ids stay unique |
| UserViews.Visited | apps/views/users.py:109-110 | the loop visits a list's items, or a string's characters one by one; a value that is not iterable raises TypeError |
| UserViews.RepeatedLetterRepeats | apps/views/users.py:109-114 | a motivation string with a repeated character creates the same row twice |
| UserViews.InitialProfile | apps/views/users.py:71-77 | the created profile holds the telegram id and the first name, with onboarding not completed |
| UserViews.AnswerQuestionnaire | apps/views/users.py:79-114 | the answers are saved, then the user's motivations deleted and one row created per visited value up to the first repeat; a save the columns refuse (a null text answer, days beyond 32 bits) leaves the profile and the motivations unchanged; success exactly when the save is accepted, the value is iterable and no visited value repeats |
| UserViews.OpenProfile | apps/views/users.py:56-77 | the account `telegram_<id>` is found and renamed or created, and its profile is found or created as InitialProfile; every other profile is unchanged and nothing else is written |
| UserViews.Register | apps/views/users.py:48-126 | a null first or last name raises at the account's save with nothing written and no profile; otherwise the new state on every path (`Registered`): the account and profile as in OpenProfile; a failing days or weight conversion, or a null username, gender, experience or goal or days beyond 32 bits at the profile's save, raises with the profile and motivations untouched; otherwise the profile holds the answers and the motivations are replaced up to the first repeat; saved exactly when no name or text answer is null, both conversions succeed, the days fit the 32-bit column and every visited motivation is stored, and then the reply names the account, the profile and whether the account is new |
| UserViews.QuestionnaireSubmit | apps/views/users.py:27-141 | text that is not JSON or a missing id answers 400 and an id that already has a profile answers success; bytes that are not text, JSON that is not an object, an id the column rejects and a null name answer 500; all of these write nothing. Otherwise the user is registered as in Register, with the same reply, and saved exactly when the answers are valid, the days within 32 bits included |
| UserViews.ProfileOf | apps/views/users.py:329 | `get(user=...)` finds the user's only profile, or none |
| UserViews.WriteProfile | apps/views/users.py:263-305 | the form's groups are written and telegram ids stay unique |
| UserViews.ApplyProfileForm | apps/views/users.py:263-297 | a bad weight or height rejects, in that order, a bad birth date raises at save, and a form with none of these is saved;  a non-empty name, male/female, a date, a weight, a height and metric/imperial each replace their field, and nothing else changes |
| UserViews.ImperialUnitStored | apps/views/users.py:295-297 | the form stores "imperial", which is outside the model's unit choices metric/english |
| UserViews.ApplyProfileFormIdempotent | apps/views/users.py:263-305 | sending the same form twice stores the same profile as once |
| UserViews.UpdateProfile | apps/views/users.py:254-307 | anonymous answers 401 with nothing written; otherwise the user's profile (created if missing) is saved with the form exactly when nothing is rejected: 200, 400 or an uncaught ValidationError |
| UserViews.ChangeLanguage | apps/views/users.py:326-338 | only uz/en/ru change the language, and only on the user's profile; a user without a profile raises DoesNotExist |
| UserViews.Cancelled | apps/views/users.py:383-384 | both subscription dates are cleared; method and price are kept |
| UserViews.CancelledNotSubscribed | apps/views/users.py:381-385 | after a cancel the profile is subscribed on no day and has 0 days to renewal |
| UserViews.CancelSubscription | apps/views/users.py:381-387 | only the user's profile loses its subscription dates and is no longer subscribed; a user without a profile raises DoesNotExist |
| UserViews.TelegramAuthRoute | apps/views/users.py:145-197 | non-POST answers 405; a missing id answers 400, and a body that is not a JSON object or an id the column rejects answers 500, each exactly then; a known id goes to the workouts exactly when onboarding is completed and to the questionnaire exactly when it is not, and an unknown one to the questionnaire as a new user |
| ApiViews.TelegramKey | apps/views/api_views.py:128 | a missing telegram id looks up NULL |
| ApiViews.Lookup | apps/views/api_views.py:128 | `get(telegram_id=...)` finds none, the one match, or several, and several only for NULL |
| ApiViews.StoreOnboarding | apps/views/api_views.py:157 | saving an onboarding write keeps telegram ids unique |
| ApiViews.DisplayName | apps/views/api_views.py:73 | `first_name or telegram_username or 'User'`, never empty |
| ApiViews.TelegramAuthAsWritten | apps/views/api_views.py:55-92 | as written: a missing id answers 400, a known id answers its profile's data, and every unknown id fails with IntegrityError |
| ApiViews.NewTelegramProfile | apps/views/api_views.py:68-75 | the new profile holds the telegram id, username, Premium flag and display name, with onboarding not completed |
| ApiViews.TelegramAuth | apps/views/api_views.py:55-92 | corrected: an unknown id creates the account `tg_<id>` and a profile linked to it; afterwards exactly one profile holds the id, and a failed call writes nothing |
| ApiViews.StoredText | apps/views/api_views.py:130-137 | a character column refuses exactly the null value |
| ApiViews.StepMotivations | apps/views/api_views.py:141 | a list is kept and a scalar is wrapped into a one-element list |
| ApiViews.ApplyStep | apps/views/api_views.py:130-157 | each known step writes exactly its own column, and is refused exactly when the value does not convert or is null, or, for the days, does not fit the 32-bit column; any other step changes nothing |
| ApiViews.ApplyStepKeepsOtherGroups | apps/views/api_views.py:130-155 | no step touches the telegram, settings or subscription fields |
| ApiViews.MotivationStep | apps/views/api_views.py:139-146 | the user's motivations are replaced by the listed values; success exactly when the value is not null and no value repeats |
| ApiViews.ColumnStep | apps/views/api_views.py:130-162 | the step's outcome is saved; success exactly when the value is accepted (days within 32 bits included), otherwise the profile is unchanged |
| ApiViews.RunStep | apps/views/api_views.py:127-162 | the step's effect on the one matched profile and on the motivation rows; no other profile changes |
| ApiViews.SaveOnboardingStep | apps/views/api_views.py:121-167 | no match answers 404, an invalid id or several NULL matches answer 400, all with nothing written; otherwise the step runs on the matched profile |
| ApiViews.CompleteOnboarding | apps/views/api_views.py:172-196 | success exactly when one profile matches, and only that profile's onboarding flag becomes true; no match answers 404; an invalid id or several matches raise |
| MyTrainer.NewSession | apps/models/my_trainer.py:28-46 | a new session is in progress, started now, with every counter and total 0 |
| MyTrainer.Pad2 | apps/models/my_trainer.py:72 | `{m:02d}` is two digits whose value is m |
| MyTrainer.Minutes | apps/models/my_trainer.py:69-70 | the minutes are below 60 and, with the hours, locate the duration within its minute |
| MyTrainer.DurationFormatted | apps/models/my_trainer.py:66-73 | "H:MM" once hours > 0, else the minutes followed by ":00" |
| MyTrainer.DurationRoundTripHours | apps/models/my_trainer.py:69-72 | from an hour on, the text reads back as its hours and leftover minutes |
| MyTrainer.DurationRoundTripMinutes | apps/models/my_trainer.py:69-73 | under an hour, the text reads back as the minutes, then 0 |
| MyTrainer.DurationShapesOverlap | apps/models/my_trainer.py:71-73 | five minutes and five hours both render "5:00" |
| MyTrainer.DurationIgnoresSeconds | apps/models/my_trainer.py:69-73 | seconds below a whole minute never change the text |
| MyTrainer.PartsOfWholeMinutes | apps/models/my_trainer.py:69-70 | hours and minutes depend only on the whole minutes |
| Workouts.Run | apps/views/workouts.py:179-193 | the run counted back from a day never exceeds the days looked at |
| Workouts.RunMeaning | apps/views/workouts.py:186-192 | every day of the run has a completed workout, and the day before it has none unless the window ran out |
| Workouts.Streak | apps/views/workouts.py:172-195 | the streak is at most 100 |
| Workouts.CalculateStreak | apps/views/workouts.py:172-195 | the bounded loop computes the streak that ends today, or yesterday when today has no workout yet |
| Workouts.StreakIgnoresUnfinished | apps/views/workouts.py:180-184 | a session that is not completed never changes a streak |
| Workouts.FullStreak | apps/views/workouts.py:179 | a workout on each of the last 100 days gives the full 100 |
| Workouts.StreakMeaning | apps/views/workouts.py:186-193 | the streak counts exactly the consecutive completed days back from today, or from yesterday |
| Workouts.SessionsOf | apps/views/workouts.py:141 | exactly the user's sessions |
| Workouts.CompletedOf | apps/views/workouts.py:142 | exactly the user's completed sessions |
| Workouts.TruncToInt | apps/views/workouts.py:161 | `int(x)` drops the fraction toward zero |
| Workouts.NoCompletedNoCalories | apps/views/workouts.py:151-153 | with no completed session the calorie total is 0 |
| Workouts.NewerFirstTotalPreorder | apps/views/workouts.py:166 | newest-first is a total preorder |
| Workouts.RecentSessions | apps/views/workouts.py:166 | at most ten sessions |
| Workouts.RecentSessionsAreMostRecent | apps/views/workouts.py:166 | the recent list is newest first, holds only the user's sessions (ten unless there are fewer), and no omitted session is newer than a listed one |
| Workouts.TrainerDashboard | apps/views/workouts.py:136-170 | total workouts is the number of completed sessions, calories their truncated sum, and the streak and recent list are as above |
| Workouts.SummaryOf | apps/views/workouts.py:105-111 | without a stored summary the page shows reps 0, weight 0 and "0:00"; a stored dictionary shows each of its values, with those defaults for missing ones; any other stored value raises AttributeError |
| Workouts.SessionStore.TakeWorkoutSummary | apps/views/workouts.py:101-118 | the page is SummaryOf the stored entries; after a shown page the key is deleted, the other entries stay, and the store is marked modified only when the key was there; after AttributeError the store is unchanged |
| Workouts.SummaryReadOnce | apps/views/workouts.py:105-116 | after the delete the summary shows the defaults |
| Exercises.SplitLines | apps/views/exercises.py:67 | `splitlines()` pieces hold no line break |
| Exercises.SplitJoinedLines | apps/views/exercises.py:67 | splitting lines joined with "\n" gives them back when none holds a break and the last is not empty |
| Exercises.NonBlankStripped | apps/views/exercises.py:65-69 | every kept line is stripped and not blank |
| Exercises.NonBlankStrippedClean | apps/views/exercises.py:65-69 | already clean lines pass through unchanged |
| Exercises.TextLines | apps/views/exercises.py:63-64 | a missing or empty text contributes nothing |
| Exercises.TextLinesOfJoined | apps/views/exercises.py:63-70 | a text of clean lines joined by "\n" reads back as exactly those lines |
| Exercises.InstructionsList | apps/views/exercises.py:60-72 | the loop builds each instruction's lines, in instruction order |
| Exercises.InstructionLinesAppend | apps/views/exercises.py:62-70 | the list of several instructions is their lists one after another |
| Exercises.InstructionLinesClean | apps/views/exercises.py:65-70 | every entry is stripped and not blank |
| Exercises.EmptyInstructionAddsNothing | apps/views/exercises.py:63-64 | an instruction without text adds nothing |
| Exercises.ForExercise | apps/views/exercises.py:62 | exactly the exercise's instructions |
| Exercises.ForExerciseDistinct | apps/models/exercises.py:81 | one exercise's instructions keep the unique (exercise, step) key |
| Exercises.InstructionsOf | apps/models/exercises.py:80 | the exercise's instructions, reordered by step number |
| Exercises.InstructionStepsIncrease | apps/models/exercises.py:80-81 | under the uniqueness rule the step numbers strictly increase |
| Exercises.IsFavorited | apps/views/exercises.py:78-81 | false without a profile, otherwise true exactly when the profile has a favorite for the exercise |
| Exercises.ExerciseDetail | apps/views/exercises.py:58-82 | the detail page's lines come from the exercise's instructions in step order, and its flag is set exactly when a profile has the exercise among its favorites |
| Exercises.MarkFavorites | apps/views/exercises.py:39-48 | each exercise's flag is IsFavorited, so all are false without a profile |
| Exercises.MuscleList | apps/views/exercises.py:20-27 | the matched exercises, reordered by name |
| Exercises.UserCollections | apps/views/exercises.py:45 | exactly the profile's collections, newest first |
| Favorites.AtMostOneFavorite | apps/models/favorites.py:34 | a profile has at most one favorite per exercise |
| Favorites.FavoriteExercises | apps/views/exercises.py:41-42 | exactly the exercises the profile has a favorite for |
| Favorites.ExerciseCount | apps/models/favorites.py:21-23 | the count is 0 exactly for an empty collection |
| Favorites.ExerciseCountAfterDelete | apps/models/favorites.py:21-23 | deleting a member exercise lowers the count by one; deleting any other exercise keeps it |
| Favorites.CollectionDeleted | apps/models/favorites.py:29 | SET_NULL: every favorite stays, and those filed in the collection lose the link |
| Favorites.CollectionDeletedValid | apps/models/favorites.py:29 | the tables stay valid and no favorite points at the deleted collection |
| Favorites.ProfileDeleted | apps/models/favorites.py:27 | CASCADE: the profile's favorites and collections go, and other profiles' favorites filed in those collections lose the link |
| Favorites.ProfileDeletedValid | apps/models/favorites.py:27-29 | the tables stay valid without the profile, and none of its rows remain |
| Favorites.ExerciseDeleted | apps/models/favorites.py:28 | CASCADE: the exercise's favorites go, and it leaves every collection |
| Favorites.ExerciseDeletedValid | apps/models/favorites.py:28 | the tables stay valid without the exercise, and no favorite names it |
| Favorites.FavoritesInOrder | apps/models/favorites.py:33 | the favorites, reordered newest first |
| Favorites.CollectionsInOrder | apps/models/favorites.py:13 | the collections, reordered newest first |
| FavoriteViews.ProfileFavorites | apps/views/favorite.py:25-26 | each of the profile's rows, once and unchanged, and no other row |
| FavoriteViews.Kept | apps/views/favorite.py:32-34 | exactly the rows whose exercise exists |
| FavoriteViews.KeptSorted | apps/views/favorite.py:27-34 | skipping rows keeps the newest-first order |
| FavoriteViews.KeptDistinct | apps/views/favorite.py:30-34 | skipping rows keeps them distinct |
| FavoriteViews.ItemsOf | apps/views/favorite.py:38-47 | one entry per kept row, carrying that row's id |
| FavoriteViews.ItemsListFavorites | apps/views/favorite.py:29-50 | rendering the profile's distinct, ordered rows gives the page's list |
| FavoriteViews.ListedItems | apps/views/favorite.py:25-47 | filtering, ordering and skipping lists exactly the profile's favorites whose exercise exists, each once, newest first, each rendered from its own row |
| FavoriteViews.RenderItems | apps/views/favorite.py:29-47 | the loop renders an entry for every row whose exercise exists, in row order |
| FavoriteViews.FavoritesList | apps/views/favorite.py:21-52 | an account without a profile raises exactly then; otherwise the page lists exactly the profile's favorites with an existing exercise, once each and newest first, and `total_count` is the list's length |
| FavoriteViews.Removal | apps/views/favorite.py:63-79 | an account as owner raises ValueError; a profile owner removes exactly the row with that id and owner, otherwise 404 with the table unchanged |
| FavoriteViews.RemovalValid | apps/views/favorite.py:69 | removing a favorite keeps the tables valid |
| FavoriteViews.Delete | apps/views/favorite.py:63-79 | the table after `delete` is the removal above; the other tables are unchanged |
| FavoriteViews.RemoveFavoriteAsWritten | apps/views/favorite.py:65-68 | as written: every request raises ValueError and nothing is removed |
| FavoriteViews.RemoveFavoritePost | apps/views/favorite.py:81-83 | POST answers and changes the table exactly as DELETE does |
| FavoriteViews.AsWrittenKeepsOwnFavorite | apps/views/favorite.py:65-68 | example: profile 7 of account 3 asks to remove its own favorite 1, which stays |
| FavoriteViews.RemoveFavorite | apps/views/favorite.py:63-79 | corrected: removes exactly when the profile owns the row, otherwise 404 with the table unchanged |

## Left out

- MD5 (RFC 1321) is an uninterpreted function. The outbound HTTP calls are not modelled:
  `create_invoice`, `ClickAutoPayment` and the avatar download in the questionnaire.
- `check_telegram_premium` is a call to the Telegram Bot API. `ApiViews.TelegramAuth` takes
  its answer as the `isPremium` parameter.
- Login, the session's `django_language`, `activate(language)`, flash messages and the response
  bodies' display fields are not modelled. Only the outcome of each reply is modelled: status,
  redirect, exception or the fields a property is about.
- Floating-point values are not modelled: `bmi`, `duration_minutes` and
  `total_duration_hours`. Weight and height are exact reals, and only whether `float(...)`
  succeeds is modelled.
- Column widths (`max_length`) and Decimal precision are not enforced. In particular
  UserViews.SaveAnswers, UserViews.Register, UserViews.QuestionnaireSubmit, ApiViews.ApplyStep
  and ApiViews.ColumnStep accept any weight, while `weight` and `height` are
  `DecimalField(max_digits=5, decimal_places=1)` (apps/models/users.py:80-81), whose save raises
  for a value of 10000 or more: 500 in the questionnaire, 400 in the API. The 32-bit range of
  `workout_days_per_week` is modelled.
- ClickMerchant.Complete: naive and aware datetimes are not distinguished, and the model uses
  one `now`. With `USE_TZ = True` (root/settings.py:89) a stored `end_date` is aware, so even
  with the import working, `subscription.end_date < datetime.now()`
  (apps/click_merchant.py:159) raises `TypeError` for a user who has a subscription. That
  happens after the payment is saved as completed (:147-151). For a user without one, the
  argument `price=payment.amount` (:172) raises `AttributeError` before
  `Subscription.objects.create` is called; the call would otherwise refuse the undeclared
  `subscription_type` with `TypeError`. The model settles and renews as intended.
- ClickMerchant.Prepare: models the intended check. `Payment` declares no `amount` field
  (apps/models/payments.py:52-62), so as written every found payment that is not completed
  raises `AttributeError` at apps/click_merchant.py:102 and -2 and 0 are never answered. The
  model gives each payment a constant amount.
- ClickMerchant.Complete: models the intended step. It imports `Subscription` from
  `users.models` (apps/click_merchant.py:131), and no `users` app is installed
  (root/settings.py:18-31), so as written every callback that passes the signature check
  raises there: -5 and -9 are never answered and no payment is settled. The model uses the
  `Subscription` of apps/models/payments.py and ignores the `subscription_type` argument it
  does not declare.
- ClickMerchant.Complete: a success callback whose `click_trans_id` is NULL is stored, as
  NULLs do not clash. A repeated success is not refused, so it extends the subscription again
  (`ExtendTwice`).
- Favorites.ExerciseCount: only states when the count is zero. The count itself is the size of
  the collection's exercise set.
- Exercises.MuscleList: models the intended page. `ExercisesByMuscleView` filters on
  `primary_body_part` (apps/views/exercises.py:27), a field `Exercise` does not declare, so as
  written the query raises `FieldError` and the page never renders. The member takes the
  matched rows as input and models only their order by name. The page's `muscle.capitalize()`
  title is not modelled.
- Exercises.UserCollections: is a function over the collection rows. The view's related
  manager is not modelled as a query.
- Exercises.MuscleList: orders names by code point (Python's `<`). The database's collation
  may differ; it is not part of this model.
- Exercises.Instruction: `text` is a NOT NULL column. Its `None` case stands only for the
  attribute the view tests with `getattr`.
- FavoriteViews.Kept: the `if obj:` test cannot fail under the foreign keys. The model still
  takes the exercises as a map and skips rows whose exercise is missing.
- Workouts.Streak: the day boundary follows root/settings.py: `timezone.now().date()` is the
  UTC date, and `started_at__date` is the Asia/Tashkent date (UTC+5).
- Workouts.RecentSessions: ties on `started_at` keep the table order. The database may order
  them differently.
- apps/tasks.py and apps/views/payments.py are commented out and are not part of this model.
  This covers the auto-renewal retry, reminders, the card-token callback and the subscribe
  flow.
- The Telegram bot and webhook code, admin classes, URL tables, forms, signals, the progress
  stub and the dashboard script are not part of this model.
- Common.PyInt and Common.PyDecimal read ASCII digits only. Python also accepts the other
  Unicode decimal digits, which are not modelled. A NaN's payload digits are accepted but not
  kept.
- Common.PyInt: the limit on digits is `sys.get_int_max_str_digits()` at its default, 4300.
- UserViews.Register and UserViews.QuestionnaireSubmit: a telegram id is saved like any
  integer. `telegram_id` is a 64-bit `BigIntegerField` (apps/models/users.py:69): an id beyond
  that range matches no profile, the account is still found or created, and then the profile's
  insert or save raises `DataError` and the answer is 500. ApiViews.TelegramAuth likewise
  creates a profile for such an id where the insert would raise.
- UserViews.QuestionnaireData: the telegram id is the integer the column stores. The account
  name `telegram_<id>` (apps/views/users.py:57) formats the raw JSON value instead, so a
  telegram id sent as the string "0123" or as the number 123.0 gives the account
  `telegram_0123` or `telegram_123.0`, while the profile stores 123. The model renders the
  integer, so it gives `telegram_123` for all three.
- UserViews.QuestionnaireData: a text answer that is a number, a list or an object stands for
  the text Django stores for it, its `str()`.
- ApiViews.TelegramAuthAsWritten, ApiViews.TelegramAuth and ApiViews.CompleteOnboarding: a
  telegram id the integer column rejects is reported as `ValueError`. A list or an object raises
  `TypeError` instead, and the answer is the same 500.
- UserViews.MotivationValue, ApiViews.StepValue and ApiViews.MotivationStep: the items of a
  motivation list are texts. A list item that is a number, a list, an object or null is not
  modelled; the unique rows compare their stored text. A null item makes its `create` raise
  `IntegrityError` (NOT NULL): the rows created before it stay, and the answer is 500 in the
  questionnaire and 400 in the API (apps/views/api_views.py:139-146, 166-167).
- Concurrent callbacks and the database's transaction isolation are not modelled.

## Findings

| source | as written | input that shows it | evidently intended | confidence | as-written member | corrected member |
|---|---|---|---|---|---|---|
| apps/views/api_views.py:68-84 | `get_or_create(telegram_id=...)` creates the profile before any user exists, and `UserProfile.user` is a required one-to-one field | any `telegram_id` that no profile holds yet: the insert violates NOT NULL and the request fails with IntegrityError, so `telegram_auth` never registers anyone | create the `tg_<id>` account first and link the new profile to it | not executed | ApiViews.TelegramAuthAsWritten | ApiViews.TelegramAuth |
| apps/views/favorite.py:65-68 | `Favorite.objects.get(id=..., user=request.user)` filters the UserProfile foreign key with a User instance | profile 7 of account 3 removes its own favorite 1: Django raises ValueError and the row stays | filter by the requesting account's profile | not executed | FavoriteViews.RemoveFavoriteAsWritten | FavoriteViews.RemoveFavorite |
