/** The user records of apps/models/users.py: the login `User`, its one `UserProfile` (a class,
    since the views assign its fields one by one and save), the derived values `age`,
    `is_subscribed` and `days_until_renewal`, and the `UserMotivation` rows with their
    uniqueness rule. Birth dates are calendar triples; the subscription dates are day numbers. */
module Profiles {
  import opened Common

  /** A calendar date, as `age` needs its year, month and day. */
  datatype Ymd = Ymd(year: int, month: int, day: int)

  /** Calendar order: by year, then month, then day (Python's tuple comparison). */
  predicate YmdLe(a: Ymd, b: Ymd) {
    a.year < b.year ||
    (a.year == b.year && (a.month < b.month || (a.month == b.month && a.day <= b.day)))
  }

  /** The `k`-th anniversary of `birth` (same month and day, `k` years later). */
  function Anniversary(birth: Ymd, k: int): Ymd {
    Ymd(birth.year + k, birth.month, birth.day)
  }

  /** `age` on day `today`: the year difference, one less while this year's birthday is still
      ahead. It is the number of anniversaries already reached: the `a`-th has come and the next
      has not. */
  function AgeOn(birth: Ymd, today: Ymd): (a: int)
    ensures YmdLe(Anniversary(birth, a), today)
    ensures !YmdLe(Anniversary(birth, a + 1), today)
  {
    var beforeBirthday := today.month < birth.month || (today.month == birth.month && today.day < birth.day);
    today.year - birth.year - (if beforeBirthday then 1 else 0)
  }

  /** The anniversary count is unique: any `k` whose anniversary has come while the next one has
      not is the age. */
  lemma AgeOnUnique(birth: Ymd, today: Ymd, k: int)
    requires YmdLe(Anniversary(birth, k), today) && !YmdLe(Anniversary(birth, k + 1), today)
    ensures k == AgeOn(birth, today)
  {
  }

  /** The field choices of apps/models/users.py that the views name. */
  const Male := "male"
  const Female := "female"
  const Metric := "metric"
  /** The model's second unit choice; the update view accepts "imperial" instead. */
  const English := "english"
  const UnitChoices: set<string> := {Metric, English}
  const LanguageChoices: set<string> := {"uz", "en", "ru"}

  /** The column groups of a profile, as apps/models/users.py lays them out. */
  datatype Telegram = Telegram(telegramId: Option<int>, telegramUsername: string, isPremium: bool)
  datatype PersonalInfo = PersonalInfo(name: string, gender: string, birthDate: Option<Ymd>)
  datatype Measurements = Measurements(weight: Option<real>, height: Option<real>)
  datatype OnboardingInfo = OnboardingInfo(
    experienceLevel: string, fitnessGoal: string, workoutDaysPerWeek: Option<int>)
  datatype Settings = Settings(unitSystem: string, language: string)
  datatype SubscriptionInfo = SubscriptionInfo(
    startDate: Option<int>, endDate: Option<int>, paymentMethod: string, price: Option<real>)

  /** Everything about a profile that a view can assign and save. */
  datatype ProfileState = ProfileState(
    telegram: Telegram,
    personal: PersonalInfo,
    measurements: Measurements,
    onboarding: OnboardingInfo,
    settings: Settings,
    onboardingCompleted: bool,
    subscription: SubscriptionInfo)

  /** A new profile row: the declared defaults (no telegram id, not premium, name "User", male,
      no measurements, no onboarding answers, metric, Uzbek, onboarding not completed, no
      subscription). */
  const NewProfile := ProfileState(
    Telegram(None, "", false),
    PersonalInfo("User", Male, None),
    Measurements(None, None),
    OnboardingInfo("", "", None),
    Settings(Metric, "uz"),
    false,
    SubscriptionInfo(None, None, "", None))

  class UserProfile {
    const id: nat
    /** The owning `User` (OneToOneField). */
    const user: nat
    var telegram: Telegram
    var personal: PersonalInfo
    var measurements: Measurements
    var onboarding: OnboardingInfo
    var settings: Settings
    var onboardingCompleted: bool
    var subscription: SubscriptionInfo

    /** A row created with the field values `s` (`objects.create(user=..., **fields)`). */
    constructor (id: nat, user: nat, s: ProfileState)
      ensures this.id == id && this.user == user && State() == s
    {
      this.id := id;
      this.user := user;
      telegram := s.telegram;
      personal := s.personal;
      measurements := s.measurements;
      onboarding := s.onboarding;
      settings := s.settings;
      onboardingCompleted := s.onboardingCompleted;
      subscription := s.subscription;
    }

    function State(): ProfileState
      reads this
    {
      ProfileState(telegram, personal, measurements, onboarding, settings, onboardingCompleted,
        subscription)
    }

    /** `age`: None without a birth date, else the number of birthdays reached by `today`. */
    function Age(today: Ymd): (a: Option<int>)
      reads this
      ensures a.None? <==> personal.birthDate.None?
      ensures a.Some? ==> YmdLe(Anniversary(personal.birthDate.value, a.value), today) &&
                          !YmdLe(Anniversary(personal.birthDate.value, a.value + 1), today)
    {
      match personal.birthDate
      case None => None
      case Some(b) => Some(AgeOn(b, today))
    }

    /** `is_subscribed`. */
    predicate IsSubscribed(today: int)
      reads this
    {
      SubscribedOn(subscription, today)
    }

    /** `days_until_renewal`. */
    function DaysUntilRenewal(today: int): nat
      reads this
    {
      DaysUntilRenewalOn(subscription, today)
    }
  }

  /** `is_subscribed` on day `today`: an end date is set and it is not before today. */
  predicate SubscribedOn(sub: SubscriptionInfo, today: int) {
    sub.endDate.Some? && sub.endDate.value >= today
  }

  /** `days_until_renewal` on day `today`: the days from today to the end date, never negative,
      0 without an end date. */
  function DaysUntilRenewalOn(sub: SubscriptionInfo, today: int): (d: nat)
    ensures sub.endDate.None? ==> d == 0
    ensures sub.endDate.Some? ==> d == Max(0, sub.endDate.value - today)
  {
    match sub.endDate
    case None => 0
    case Some(end) => Max(0, end - today)
  }

  /** The renewal count and the subscription flag agree: days remain only while subscribed, and
      while subscribed the count is the exact distance to the end date. */
  lemma RenewalAgreesWithSubscription(sub: SubscriptionInfo, today: int)
    ensures DaysUntilRenewalOn(sub, today) > 0 ==> SubscribedOn(sub, today)
    ensures SubscribedOn(sub, today) ==> DaysUntilRenewalOn(sub, today) == sub.endDate.value - today
    ensures !SubscribedOn(sub, today) ==> DaysUntilRenewalOn(sub, today) == 0
  {
  }

  /** An account of `django.contrib.auth`. */
  datatype User = User(username: string, firstName: string, lastName: string)

  /** A `UserMotivation` row. */
  datatype Motivation = Motivation(user: nat, motivation: string)

  predicate NoDuplicates<T(==)>(s: seq<T>) {
    forall i, j :: 0 <= i < j < |s| ==> s[i] != s[j]
  }

  /** `UserMotivation.objects.filter(user=user).delete()`: the other users' rows, in order. */
  function WithoutUser(ms: seq<Motivation>, user: nat): (r: seq<Motivation>)
    ensures forall m :: m in r <==> m in ms && m.user != user
    ensures |r| <= |ms|
  {
    if ms == [] then []
    else (if ms[0].user == user then [] else [ms[0]]) + WithoutUser(ms[1..], user)
  }

  lemma {:induction false} WithoutUserNoDuplicates(ms: seq<Motivation>, user: nat)
    requires NoDuplicates(ms)
    ensures NoDuplicates(WithoutUser(ms, user))
  {
    if ms != [] {
      WithoutUserNoDuplicates(ms[1..], user);
      var rest := WithoutUser(ms[1..], user);
      assert ms[0] !in ms[1..];
      assert ms[0] !in rest;
    }
  }

  /** One `UserMotivation` row per listed value, in list order. */
  function RowsFor(user: nat, values: seq<string>): (r: seq<Motivation>)
    ensures |r| == |values|
    ensures forall i :: 0 <= i < |values| ==> r[i] == Motivation(user, values[i])
  {
    seq(|values|, i requires 0 <= i < |values| => Motivation(user, values[i]))
  }

  /** The length of the longest duplicate-free prefix of `values`: the index of the first value
      that repeats an earlier one, or `|values|` when none does. */
  function FirstRepeat(values: seq<string>): (k: nat)
    ensures k <= |values|
    ensures NoDuplicates(values[..k])
    ensures k < |values| ==> values[k] in values[..k]
  {
    if values == [] then 0
    else
      var init := values[..|values| - 1];
      var k := FirstRepeat(init);
      if k < |init| then
        assert values[..k] == init[..k];
        k
      else if values[|values| - 1] in init then
        assert values[..|init|] == init;
        |init|
      else
        assert init[..k] == init;
        assert values[..|values|] == init + [values[|values| - 1]];
        |values|
  }

  /** The whole list is duplicate-free exactly when no value repeats. */
  lemma FirstRepeatNoDuplicates(values: seq<string>)
    ensures FirstRepeat(values) == |values| <==> NoDuplicates(values)
  {
    var k := FirstRepeat(values);
    if k < |values| {
      var j :| 0 <= j < k && values[..k][j] == values[k];
      assert values[j] == values[k];
    } else {
      assert values[..k] == values;
    }
  }

  /** The tables that the profile views touch: the accounts, the profiles and the motivation
      rows, with the counters that hand out new primary keys. */
  class ProfileDb {
    var users: map<nat, User>
    /** `UserProfile.objects`, keyed by primary key. */
    var profiles: map<nat, UserProfile>
    /** `UserMotivation.objects`, in insertion order. */
    var motivations: seq<Motivation>
    var nextUserId: nat
    var nextProfileId: nat

    ghost predicate Valid()
      reads this, profiles.Values
    {
      && (forall k :: k in profiles ==> profiles[k].id == k && k < nextProfileId && profiles[k].user in users)
      && OneProfilePerUser(profiles)
      && UniqueTelegramIds(profiles)
      && (forall u :: u in users ==> u < nextUserId)
      && UniqueUsernames(users)
      && MotivationsValid(motivations, users)
    }

    constructor ()
      ensures Valid() && users == map[] && profiles == map[] && motivations == []
    {
      users := map[];
      profiles := map[];
      motivations := [];
      nextUserId := 0;
      nextProfileId := 0;
    }

    /** The primary keys of the profiles whose `telegram_id` equals `t` (`None` is SQL NULL,
        which `filter(telegram_id=None)` matches). */
    function TelegramMatches(t: Option<int>): (ks: set<nat>)
      reads this, profiles.Values
      ensures forall k :: k in ks <==> k in profiles && profiles[k].telegram.telegramId == t
    {
      set k | k in profiles && profiles[k].telegram.telegramId == t
    }

    /** The primary keys of the profiles owned by `user`. */
    function ProfilesOf(user: nat): (ks: set<nat>)
      reads this, profiles.Values
      ensures forall k :: k in ks <==> k in profiles && profiles[k].user == user
    {
      set k | k in profiles && profiles[k].user == user
    }

    /** The keys of the users named `username`. */
    function UsersNamed(username: string): (us: set<nat>)
      reads this
      ensures forall u :: u in us <==> u in users && users[u].username == username
    {
      set u | u in users && users[u].username == username
    }

    /** `User.objects.create(...)`: a new account under a fresh key; the username must be free
        (the caller raises `IntegrityError` otherwise). */
    method CreateUser(username: string, firstName: string, lastName: string) returns (u: nat)
      requires Valid() && UsersNamed(username) == {}
      modifies this
      ensures Valid()
      ensures u !in old(users) && users == old(users)[u := User(username, firstName, lastName)]
      ensures profiles == old(profiles) && motivations == old(motivations)
      ensures nextProfileId == old(nextProfileId)
    {
      u := nextUserId;
      users := users[u := User(username, firstName, lastName)];
      nextUserId := nextUserId + 1;
    }

    /** `UserProfile.objects.create(user=user, ...)` with the field values `s`; the user must
        have no profile yet and `s` must not reuse another profile's telegram id. */
    method CreateProfile(user: nat, s: ProfileState) returns (p: UserProfile)
      requires Valid() && user in users && ProfilesOf(user) == {}
      requires s.telegram.telegramId.Some? ==> TelegramMatches(s.telegram.telegramId) == {}
      modifies this
      ensures Valid() && fresh(p)
      ensures p.user == user && p.State() == s
      ensures p.id !in old(profiles) && profiles == old(profiles)[p.id := p]
      ensures users == old(users) && motivations == old(motivations)
      ensures nextUserId == old(nextUserId)
    {
      p := new UserProfile(nextProfileId, user, s);
      profiles := profiles[p.id := p];
      nextProfileId := nextProfileId + 1;
    }

    /** The motivation rows of the questionnaire and of the onboarding step: the user's rows are
        deleted, then one row is created per listed value. Creating a row that already exists
        breaks `unique_together` and raises (`ok` false); the rows created before it stay. */
    method ReplaceMotivations(user: nat, values: seq<string>) returns (ok: bool)
      requires Valid() && user in users
      modifies this
      ensures Valid()
      ensures ok <==> NoDuplicates(values)
      ensures motivations ==
        WithoutUser(old(motivations), user) + RowsFor(user, values[..FirstRepeat(values)])
      ensures users == old(users) && profiles == old(profiles)
      ensures nextUserId == old(nextUserId) && nextProfileId == old(nextProfileId)
    {
      WithoutUserNoDuplicates(motivations, user);
      var rows;
      rows, ok := CreateRows(WithoutUser(motivations, user), user, values, users);
      motivations := rows;
    }
  }

  /** The creation loop: starting from the rows `base` that remain after the delete, append one
      row per value and stop at the first row that already exists. */
  method CreateRows(base: seq<Motivation>, user: nat, values: seq<string>, users: map<nat, User>)
    returns (rows: seq<Motivation>, ok: bool)
    requires MotivationsValid(base, users) && user in users
    requires forall m :: m in base ==> m.user != user
    ensures MotivationsValid(rows, users)
    ensures ok <==> NoDuplicates(values)
    ensures rows == base + RowsFor(user, values[..FirstRepeat(values)])
  {
    FirstRepeatNoDuplicates(values);
    rows := base;
    ok := true;
    var i := 0;
    while i < |values|
      invariant i <= FirstRepeat(values)
      invariant rows == base + RowsFor(user, values[..i])
      invariant MotivationsValid(rows, users)
    {
      var row := Motivation(user, values[i]);
      if row in rows {
        RepeatedRow(base, user, values, i);
        ok := false;
        break;
      }
      NoDuplicatesAppend(rows, row);
      RowsForAppend(user, values, i);
      rows := rows + [row];
      i := i + 1;
    }
    assert ok ==> values[..i] == values;
  }

  /** A row for `values[i]` already among the other users' rows and the rows of `values[..i]`
      is one of the latter, so `values[i]` repeats an earlier value. */
  lemma RepeatedRow(base: seq<Motivation>, user: nat, values: seq<string>, i: nat)
    requires i < |values|
    requires forall m :: m in base ==> m.user != user
    requires Motivation(user, values[i]) in base + RowsFor(user, values[..i])
    ensures values[i] in values[..i]
  {
    var rows := RowsFor(user, values[..i]);
    assert Motivation(user, values[i]) in rows;
    var j :| 0 <= j < |rows| && rows[j] == Motivation(user, values[i]);
    assert values[..i][j] == values[i];
  }

  lemma RowsForAppend(user: nat, values: seq<string>, i: nat)
    requires i < |values|
    ensures RowsFor(user, values[..i + 1]) == RowsFor(user, values[..i]) + [Motivation(user, values[i])]
  {
    assert values[..i + 1] == values[..i] + [values[i]];
  }

  lemma NoDuplicatesAppend<T>(s: seq<T>, x: T)
    requires NoDuplicates(s) && x !in s
    ensures NoDuplicates(s + [x])
  {
  }

  predicate OneProfilePerUser(profiles: map<nat, UserProfile>)
    reads profiles.Values
  {
    forall a, b :: a in profiles && b in profiles && a != b ==> profiles[a].user != profiles[b].user
  }

  /** `telegram_id` is `unique=True`; NULLs do not clash. */
  predicate UniqueTelegramIds(profiles: map<nat, UserProfile>)
    reads profiles.Values
  {
    forall a, b :: a in profiles && b in profiles && a != b && profiles[a].telegram.telegramId.Some? ==>
      profiles[a].telegram.telegramId != profiles[b].telegram.telegramId
  }

  /** At most one row per (user, motivation) (`unique_together`), each for an existing user. */
  predicate MotivationsValid(ms: seq<Motivation>, users: map<nat, User>) {
    NoDuplicates(ms) && forall i :: 0 <= i < |ms| ==> ms[i].user in users
  }

  predicate UniqueUsernames(users: map<nat, User>) {
    forall a, b :: a in users && b in users && a != b ==> users[a].username != users[b].username
  }

  /** With unique telegram ids, a telegram id matches at most one profile, so `get` never finds
      several. */
  lemma AtMostOneTelegramMatch(db: ProfileDb, t: int)
    requires db.Valid()
    ensures |db.TelegramMatches(Some(t))| <= 1
  {
    var ks := db.TelegramMatches(Some(t));
    if ks != {} {
      var a :| a in ks;
      assert ks == {a} by {
        forall b | b in ks ensures b == a {
        }
      }
    }
  }

  /** A user owns at most one profile. */
  lemma AtMostOneProfile(db: ProfileDb, user: nat)
    requires db.Valid()
    ensures |db.ProfilesOf(user)| <= 1
  {
    var ks := db.ProfilesOf(user);
    if ks != {} {
      var a :| a in ks;
      assert ks == {a} by {
        forall b | b in ks ensures b == a {
        }
      }
    }
  }
}
