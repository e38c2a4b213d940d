/** The JSON endpoints of apps/views/api_views.py that the Telegram Mini App calls while a user
    signs in and walks through onboarding: `telegram_auth`, `save_onboarding_step` and
    `complete_onboarding`. Request values reach the model decoded: a telegram id is `Absent` when
    missing (or, where the view tests truthiness, falsy), `Invalid` when the integer column
    rejects it; the Premium lookup over the Telegram Bot API is a parameter. */
module ApiViews {
  import opened Common
  import opened Profiles

  /** The status a view answers with when it does not raise; `Raised` is an exception the view
      does not catch (answered 500). */
  datatype ApiReply = Ok | BadRequest | NotFound | Raised(exception: string)

  /** The profile lookup `UserProfile.objects.get(telegram_id=...)`. */
  datatype Match = NoProfile | Several | One(p: UserProfile)

  /** The lookup key of a telegram id: a missing one is `None`, which the ORM turns into
      `IS NULL`. */
  function TelegramKey(t: Parsed<int>): (key: Option<int>)
    requires !t.Invalid?
    ensures key.None? <==> t.Absent?
    ensures t.Value? ==> key == Some(t.v)
  {
    if t.Value? then Some(t.v) else None
  }

  /** `get(telegram_id=key)`: `DoesNotExist`, `MultipleObjectsReturned` or the one profile. Only
      the NULL key can match several, since telegram ids are unique. */
  method Lookup(db: ProfileDb, key: Option<int>) returns (m: Match)
    requires db.Valid()
    ensures m.NoProfile? <==> db.TelegramMatches(key) == {}
    ensures m.Several? ==> |db.TelegramMatches(key)| >= 2 && key.None?
    ensures m.One? ==>
      db.TelegramMatches(key) == {m.p.id} && m.p.id in db.profiles && db.profiles[m.p.id] == m.p
  {
    var ks := db.TelegramMatches(key);
    if ks == {} {
      return NoProfile;
    }
    var k :| k in ks;
    if ks == {k} {
      return One(db.profiles[k]);
    }
    var j :| j in ks && j != k;
    TwoElements(ks, j, k);
    if key.Some? {
      assert false;
    }
    m := Several;
  }

  /** Stores `s` on profile `p`; only the groups an onboarding call writes may differ. */
  method StoreOnboarding(db: ProfileDb, p: UserProfile, s: ProfileState)
    requires db.Valid() && p.id in db.profiles && db.profiles[p.id] == p
    requires s.telegram == p.telegram && s.settings == p.settings && s.subscription == p.subscription
    modifies p
    ensures db.Valid()
    ensures p.State() == s
  {
    p.personal := s.personal;
    p.measurements := s.measurements;
    p.onboarding := s.onboarding;
    p.onboardingCompleted := s.onboardingCompleted;
  }

  // ===== telegram_auth =====

  /** The answer of `telegram_auth`: the profile's user, telegram id, Premium flag, onboarding
      flag and name. */
  datatype AuthReply =
    | MissingTelegramId
    | AuthFailed(exception: string)
    | Authenticated(userId: nat, profileId: nat, telegramId: int, isPremium: bool,
                    onboardingCompleted: bool, name: string)

  /** The name a new profile gets: `first_name or telegram_username or 'User'`. */
  function DisplayName(firstName: string, telegramUsername: string): (n: string)
    ensures n != ""
    ensures firstName != "" ==> n == firstName
    ensures firstName == "" && telegramUsername != "" ==> n == telegramUsername
    ensures firstName == "" && telegramUsername == "" ==> n == "User"
  {
    if firstName != "" then firstName else if telegramUsername != "" then telegramUsername else "User"
  }

  /** The account name `telegram_auth` means to give a Telegram user. */
  function AuthLogin(t: int): string {
    "tg_" + IntToString(t)
  }

  /** `telegram_auth` as written. `get_or_create(telegram_id=...)` creates a missing profile
      without the user it requires, so the insert breaks the NOT NULL constraint and the
      request fails; the code that would then create the user is never reached. A known
      Telegram id gets its profile's data; nothing is ever written. */
  method TelegramAuthAsWritten(db: ProfileDb, telegramId: Parsed<int>) returns (r: AuthReply)
    requires db.Valid()
    ensures telegramId.Absent? <==> r == MissingTelegramId
    ensures telegramId.Invalid? ==> r == AuthFailed("ValueError")
    ensures telegramId.Value? && db.TelegramMatches(Some(telegramId.v)) == {} ==>
      r == AuthFailed("IntegrityError")
    ensures r.Authenticated? <==>
      telegramId.Value? && db.TelegramMatches(Some(telegramId.v)) != {}
    ensures r.Authenticated? ==>
      && db.TelegramMatches(Some(telegramId.v)) == {r.profileId}
      && r.profileId in db.profiles
      && var p := db.profiles[r.profileId];
      && r == Authenticated(p.user, p.id, telegramId.v, p.telegram.isPremium,
                            p.onboardingCompleted, p.personal.name)
  {
    match telegramId
    case Absent =>
      r := MissingTelegramId;
    case Invalid =>
      r := AuthFailed("ValueError");
    case Value(t) =>
      var m := Lookup(db, Some(t));
      if m.One? {
        var p := m.p;
        r := Authenticated(p.user, p.id, t, p.telegram.isPremium, p.onboardingCompleted, p.personal.name);
      } else {
        r := AuthFailed("IntegrityError");
      }
  }

  /** The profile `telegram_auth` means to create for a new Telegram id. */
  function NewTelegramProfile(t: int, telegramUsername: string, isPremium: bool, firstName: string): (s: ProfileState)
    ensures s.telegram == Telegram(Some(t), telegramUsername, isPremium)
    ensures s.personal.name == DisplayName(firstName, telegramUsername)
    ensures !s.onboardingCompleted
    ensures s.personal.gender == NewProfile.personal.gender && s.settings == NewProfile.settings
  {
    NewProfile.(telegram := Telegram(Some(t), telegramUsername, isPremium),
                personal := NewProfile.personal.(name := DisplayName(firstName, telegramUsername)))
  }

  /** `telegram_auth` as evidently intended: a new Telegram id gets the account `tg_<id>` (named
      with `first_name`) and a profile linked to it, with the given Premium flag and the display
      name; an account name already taken raises and nothing is written. Either way, after a
      successful call exactly one profile holds the Telegram id. */
  method TelegramAuth(db: ProfileDb, telegramId: Parsed<int>, telegramUsername: string, firstName: string,
                      isPremium: bool) returns (r: AuthReply)
    requires db.Valid()
    modifies db
    ensures db.Valid()
    ensures telegramId.Absent? <==> r == MissingTelegramId
    ensures telegramId.Invalid? ==> r == AuthFailed("ValueError")
    ensures !r.Authenticated? ==> unchanged(db)
    ensures r.Authenticated? ==> db.TelegramMatches(Some(telegramId.v)) == {r.profileId}
    ensures telegramId.Value? && old(db.TelegramMatches(Some(telegramId.v))) != {} ==>
      r.Authenticated? && unchanged(db)
    ensures telegramId.Value? && old(db.TelegramMatches(Some(telegramId.v))) == {} ==>
      var t := telegramId.v;
      if old(db.UsersNamed(AuthLogin(t))) != {} then r == AuthFailed("IntegrityError")
      else
        && r.Authenticated? && r.telegramId == t && r.isPremium == isPremium && !r.onboardingCompleted
        && r.name == DisplayName(firstName, telegramUsername)
        && r.userId !in old(db.users)
        && db.users == old(db.users)[r.userId := User(AuthLogin(t), firstName, "")]
        && r.profileId !in old(db.profiles)
        && db.profiles == old(db.profiles)[r.profileId := db.profiles[r.profileId]]
        && db.profiles[r.profileId].user == r.userId
        && db.profiles[r.profileId].State() == NewTelegramProfile(t, telegramUsername, isPremium, firstName)
        && db.motivations == old(db.motivations)
  {
    match telegramId
    case Absent =>
      r := MissingTelegramId;
    case Invalid =>
      r := AuthFailed("ValueError");
    case Value(t) =>
      var m := Lookup(db, Some(t));
      if m.One? {
        var p := m.p;
        return Authenticated(p.user, p.id, t, p.telegram.isPremium, p.onboardingCompleted, p.personal.name);
      }
      if db.UsersNamed(AuthLogin(t)) != {} {
        return AuthFailed("IntegrityError");
      }
      var u := db.CreateUser(AuthLogin(t), firstName, "");
      var s := NewTelegramProfile(t, telegramUsername, isPremium, firstName);
      assert db.ProfilesOf(u) == {};
      var p := db.CreateProfile(u, s);
      r := Authenticated(u, p.id, t, isPremium, false, s.personal.name);
  }

  // ===== save_onboarding_step =====

  /** The JSON `value` of an onboarding step: `null`; a scalar, with its text (`str(value)`, what
      a character column stores) and the outcome of `int(value)` and `float(value)`; or a list,
      with its elements' texts and its own text. */
  datatype StepValue =
    | Null
    | Scalar(text: string, asInt: Option<int>, asFloat: Option<real>)
    | Items(xs: seq<string>, text: string)

  /** What a character column stores for `value`; `None` for `null`, which the NOT NULL column
      refuses. */
  function StoredText(value: StepValue): (t: Option<string>)
    ensures t.None? <==> value.Null?
  {
    match value
    case Null => None
    case Scalar(text, _, _) => Some(text)
    case Items(_, text) => Some(text)
  }

  /** The motivations the motivation step writes: the list itself, a scalar wrapped into a
      one-element list; `None` for `null`, whose one row the NOT NULL column refuses. */
  function StepMotivations(value: StepValue): (ms: Option<seq<string>>)
    ensures value.Items? ==> ms == Some(value.xs)
    ensures value.Scalar? ==> ms == Some([value.text])
    ensures value.Null? <==> ms.None?
  {
    match value
    case Null => None
    case Scalar(text, _, _) => Some([text])
    case Items(xs, _) => Some(xs)
  }

  /** The names of the profile columns whose values differ between `a` and `b`. */
  function ChangedFields(a: ProfileState, b: ProfileState): (fs: set<string>)
    ensures fs == {} ==> a == b
  {
    (if a.telegram.telegramId != b.telegram.telegramId then {"telegram_id"} else {})
    + (if a.telegram.telegramUsername != b.telegram.telegramUsername then {"telegram_username"} else {})
    + (if a.telegram.isPremium != b.telegram.isPremium then {"is_premium"} else {})
    + (if a.personal.name != b.personal.name then {"name"} else {})
    + (if a.personal.gender != b.personal.gender then {"gender"} else {})
    + (if a.personal.birthDate != b.personal.birthDate then {"birth_date"} else {})
    + (if a.measurements.weight != b.measurements.weight then {"weight"} else {})
    + (if a.measurements.height != b.measurements.height then {"height"} else {})
    + (if a.onboarding.experienceLevel != b.onboarding.experienceLevel then {"experience_level"} else {})
    + (if a.onboarding.fitnessGoal != b.onboarding.fitnessGoal then {"fitness_goal"} else {})
    + (if a.onboarding.workoutDaysPerWeek != b.onboarding.workoutDaysPerWeek then {"workout_days_per_week"} else {})
    + (if a.settings.unitSystem != b.settings.unitSystem then {"unit_system"} else {})
    + (if a.settings.language != b.settings.language then {"language"} else {})
    + (if a.onboardingCompleted != b.onboardingCompleted then {"onboarding_completed"} else {})
    + (if a.subscription.startDate != b.subscription.startDate then {"subscription_start_date"} else {})
    + (if a.subscription.endDate != b.subscription.endDate then {"subscription_end_date"} else {})
    + (if a.subscription.paymentMethod != b.subscription.paymentMethod then {"payment_method"} else {})
    + (if a.subscription.price != b.subscription.price then {"subscription_price"} else {})
  }

  /** The column a profile step writes, by step name. */
  function StepColumn(step: string): Option<string> {
    if step == "gender" then Some("gender")
    else if step == "experience" then Some("experience_level")
    else if step == "goal" then Some("fitness_goal")
    else if step == "days" then Some("workout_days_per_week")
    else if step == "weight" then Some("weight")
    else if step == "height" then Some("height")
    else None
  }

  /** The profile after the step's assignment, or `None` when the conversion (`int`, `float`) or
      the column (NOT NULL, or the 32-bit range of the `workout_days_per_week` integer) refuses
      the value, which answers 400 before anything is saved. */
  function ApplyStep(s: ProfileState, step: Option<string>, value: StepValue): (o: Option<ProfileState>)
    // each known step writes exactly its one column
    ensures o.Some? && step.Some? && StepColumn(step.value).Some? ==>
      ChangedFields(s, o.value) <= {StepColumn(step.value).value}
    // any other step, the motivation step included, leaves the profile as it was
    ensures (step.None? || StepColumn(step.value).None?) ==> o == Some(s)
    ensures step == Some("gender") ==>
      (o.Some? <==> !value.Null?) && (o.Some? ==> o.value.personal.gender == StoredText(value).value)
    ensures step == Some("experience") ==>
      (o.Some? <==> !value.Null?) && (o.Some? ==> o.value.onboarding.experienceLevel == StoredText(value).value)
    ensures step == Some("goal") ==>
      (o.Some? <==> !value.Null?) && (o.Some? ==> o.value.onboarding.fitnessGoal == StoredText(value).value)
    ensures step == Some("days") ==>
      (o.Some? <==> value.Scalar? && value.asInt.Some? && IsInt32(value.asInt.value)) &&
      (o.Some? ==> o.value.onboarding.workoutDaysPerWeek == value.asInt)
    ensures step == Some("weight") ==>
      (o.Some? <==> value.Scalar? && value.asFloat.Some?) && (o.Some? ==> o.value.measurements.weight == value.asFloat)
    ensures step == Some("height") ==>
      (o.Some? <==> value.Scalar? && value.asFloat.Some?) && (o.Some? ==> o.value.measurements.height == value.asFloat)
  {
    if step.None? then Some(s)
    else
      match step.value
      case "gender" =>
        if value.Null? then None else Some(s.(personal := s.personal.(gender := StoredText(value).value)))
      case "experience" =>
        if value.Null? then None
        else Some(s.(onboarding := s.onboarding.(experienceLevel := StoredText(value).value)))
      case "goal" =>
        if value.Null? then None else Some(s.(onboarding := s.onboarding.(fitnessGoal := StoredText(value).value)))
      case "days" =>
        if value.Scalar? && value.asInt.Some? && IsInt32(value.asInt.value) then
          Some(s.(onboarding := s.onboarding.(workoutDaysPerWeek := value.asInt)))
        else None
      case "weight" =>
        if value.Scalar? && value.asFloat.Some? then Some(s.(measurements := s.measurements.(weight := value.asFloat)))
        else None
      case "height" =>
        if value.Scalar? && value.asFloat.Some? then Some(s.(measurements := s.measurements.(height := value.asFloat)))
        else None
      case _ => Some(s)
  }

  /** The step on the one profile `p` the telegram id matched. */
  method RunStep(db: ProfileDb, p: UserProfile, step: Option<string>, value: StepValue) returns (r: ApiReply)
    requires db.Valid() && p.id in db.profiles && db.profiles[p.id] == p
    modifies db, p
    ensures db.Valid()
    ensures r == Ok || r == BadRequest
    ensures StepEffect(db, p.id, step, value, r)
  {
    if step == Some("motivation") {
      r := MotivationStep(db, p, value);
    } else {
      r := ColumnStep(db, p, step, value);
    }
  }

  /** The motivation step: the user's rows are replaced by the listed values. */
  method MotivationStep(db: ProfileDb, p: UserProfile, value: StepValue) returns (r: ApiReply)
    requires db.Valid() && p.id in db.profiles && db.profiles[p.id] == p
    modifies db
    ensures db.Valid()
    ensures r == Ok || r == BadRequest
    ensures db.profiles == old(db.profiles) && db.users == old(db.users)
    ensures var values := StepMotivations(value).GetOr([]);
      && db.motivations == WithoutUser(old(db.motivations), p.user) + RowsFor(p.user, values[..FirstRepeat(values)])
      && (r == Ok <==> !value.Null? && NoDuplicates(values))
  {
    var values := StepMotivations(value);
    var ok := db.ReplaceMotivations(p.user, values.GetOr([]));
    r := if values.Some? && ok then Ok else BadRequest;
  }

  /** No step touches the telegram, settings or subscription groups. */
  lemma ApplyStepKeepsOtherGroups(s: ProfileState, step: Option<string>, value: StepValue)
    ensures var o := ApplyStep(s, step, value);
      o.Some? ==> o.value.telegram == s.telegram && o.value.settings == s.settings && o.value.subscription == s.subscription
  {
    if step.Some? {
      match step.value
      case "gender" =>
      case "experience" =>
      case "goal" =>
      case "days" =>
      case "weight" =>
      case "height" =>
      case _ =>
    }
  }

  /** Any other step: the outcome of `ApplyStep` is saved when the value is accepted. */
  method ColumnStep(db: ProfileDb, p: UserProfile, step: Option<string>, value: StepValue) returns (r: ApiReply)
    requires db.Valid() && p.id in db.profiles && db.profiles[p.id] == p
    modifies p
    ensures db.Valid()
    ensures r == Ok || r == BadRequest
    ensures var o := ApplyStep(old(p.State()), step, value);
      (r == Ok <==> o.Some?) && p.State() == o.GetOr(old(p.State()))
  {
    var o := ApplyStep(p.State(), step, value);
    ApplyStepKeepsOtherGroups(p.State(), step, value);
    if o.None? {
      r := BadRequest;
    } else {
      StoreOnboarding(db, p, o.value);
      r := Ok;
    }
  }

  /** What a step did to profile `k` and to the motivation rows, given its reply `r`: the
      motivation step replaces the user's rows and leaves the profile as it was, any other step
      leaves the rows and stores the outcome of `ApplyStep` when it succeeds. No other profile
      changes. */
  twostate predicate StepEffect(db: ProfileDb, k: nat, step: Option<string>, value: StepValue, r: ApiReply)
    reads db, db.profiles.Values
  {
    && db.profiles == old(db.profiles) && db.users == old(db.users) && k in db.profiles
    && (forall j :: j in db.profiles && j != k ==> db.profiles[j].State() == old(db.profiles[j].State()))
    && var p := old(db.profiles[k]);
    && if step == Some("motivation") then
         && p.State() == old(p.State())
         && var values := StepMotivations(value).GetOr([]);
         && db.motivations == WithoutUser(old(db.motivations), p.user) + RowsFor(p.user, values[..FirstRepeat(values)])
         && (r == Ok <==> !value.Null? && NoDuplicates(values))
       else
         && db.motivations == old(db.motivations)
         && var o := ApplyStep(old(p.State()), step, value);
         && (r == Ok <==> o.Some?)
         && p.State() == o.GetOr(old(p.State()))
  }

  /** `save_onboarding_step`. The profile is looked up by telegram id: none answers 404, an id the
      column rejects or several NULL matches answer 400, all without writing. On the one profile
      matched the step runs as `StepEffect` says: a known step writes its one column (400, nothing
      saved, when the value is refused); the motivation step deletes the user's rows and creates
      one per listed value, answering 400 after a refused or repeated value with the rows written
      so far kept; an unknown step saves the profile unchanged and still succeeds. */
  method SaveOnboardingStep(db: ProfileDb, telegramId: Parsed<int>, step: Option<string>, value: StepValue)
    returns (r: ApiReply)
    requires db.Valid()
    modifies db, db.profiles.Values
    ensures db.Valid()
    ensures r == Ok || r == BadRequest || r == NotFound
    ensures telegramId.Invalid? ==> r == BadRequest && unchanged(db) && unchanged(db.profiles.Values)
    ensures !telegramId.Invalid? && old(db.TelegramMatches(TelegramKey(telegramId))) == {} ==>
      r == NotFound && unchanged(db) && unchanged(db.profiles.Values)
    ensures !telegramId.Invalid? && |old(db.TelegramMatches(TelegramKey(telegramId)))| >= 2 ==>
      r == BadRequest && unchanged(db) && unchanged(db.profiles.Values)
    ensures !telegramId.Invalid? && |old(db.TelegramMatches(TelegramKey(telegramId)))| == 1 ==>
      forall k :: k in old(db.TelegramMatches(TelegramKey(telegramId))) ==> StepEffect(db, k, step, value, r)
  {
    if telegramId.Invalid? {
      return BadRequest;
    }
    var m := Lookup(db, TelegramKey(telegramId));
    match m
    case NoProfile =>
      r := NotFound;
    case Several =>
      r := BadRequest;
    case One(p) =>
      r := RunStep(db, p, step, value);
  }

  // ===== complete_onboarding =====

  /** `complete_onboarding`: marks the telegram id's profile as onboarded and answers with it;
      no profile answers 404. An id the column rejects or several NULL matches raise, as the view
      catches only `DoesNotExist`. */
  method CompleteOnboarding(db: ProfileDb, telegramId: Parsed<int>) returns (r: ApiReply)
    requires db.Valid()
    modifies db.profiles.Values
    ensures db.Valid()
    ensures telegramId.Invalid? ==> r == Raised("ValueError")
    ensures !telegramId.Invalid? && old(db.TelegramMatches(TelegramKey(telegramId))) == {} ==> r == NotFound
    ensures !telegramId.Invalid? && |old(db.TelegramMatches(TelegramKey(telegramId)))| >= 2 ==>
      r == Raised("MultipleObjectsReturned")
    ensures r == Ok <==> !telegramId.Invalid? && |old(db.TelegramMatches(TelegramKey(telegramId)))| == 1
    ensures forall k :: k in db.profiles ==>
      db.profiles[k].State() ==
        if r == Ok && k in old(db.TelegramMatches(TelegramKey(telegramId)))
        then old(db.profiles[k].State()).(onboardingCompleted := true)
        else old(db.profiles[k].State())
  {
    if telegramId.Invalid? {
      return Raised("ValueError");
    }
    var m := Lookup(db, TelegramKey(telegramId));
    match m
    case NoProfile =>
      r := NotFound;
    case Several =>
      r := Raised("MultipleObjectsReturned");
    case One(p) =>
      StoreOnboarding(db, p, p.State().(onboardingCompleted := true));
      r := Ok;
  }
}
