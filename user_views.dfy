/** The profile views of apps/views/users.py: the questionnaire that registers a Telegram user,
    the profile form, the language switch, the subscription cancel and the Telegram login
    routing. A request's values reach the model already decoded: an absent or empty form value is
    `None`/`Absent`, and the outcome of Python's `int(...)`/`float(...)` or Django's date parsing
    is given as a `Parsed` value. Login, messages and the session are not modelled. */
module UserViews {
  import opened Common
  import opened Profiles

  /** `LOGIN_URL`, where `LoginRequiredMixin` sends an anonymous request. */
  const LoginUrl := "/miniapp/questionnaire/"

  /** The outcome of a form view: a JSON answer with its status, a redirect, or an exception the
      view does not catch (Django answers 500). */
  datatype Reply = Json(status: int, success: bool) | Redirect(url: string) | Raised(exception: string)

  // ===== QuestionnaireSubmitView =====

  /** The JSON value under "motivation" (an absent key is the empty list): a list of texts (an
      object stands for the list of its keys), a string, or a value the loop cannot iterate (a
      number, a boolean or null). */
  datatype MotivationValue = Items(values: seq<string>) | Text(text: string) | NotIterable

  /** A text answer of the JSON body: a missing key, a JSON null, or a value (any value that is
      not text stands for the `str()` of it that Django stores). */
  datatype TextAnswer = Missing | Null | Given(text: string)
  {
    /** The text the answer writes: its own, or `default` for a missing key. A null is never
        written, because its column is NOT NULL and the save raises `IntegrityError`. */
    function Or(default: string): string {
      if Given? then text else default
    }
  }

  /** The decoded JSON object of the questionnaire. `telegramId` is `Absent` when missing or
      falsy and `Invalid` when the integer column rejects it; `days` and `weight` carry the
      outcome of `int(...)` and `float(...)` (`Absent` when the key is missing, `Invalid` when the
      conversion raises, a null included). */
  datatype QuestionnaireData = QuestionnaireData(
    telegramId: Parsed<int>,
    firstName: TextAnswer,
    lastName: TextAnswer,
    username: TextAnswer,
    gender: TextAnswer,
    experience: TextAnswer,
    goal: TextAnswer,
    days: Parsed<int>,
    weight: Parsed<real>,
    motivation: MotivationValue)

  /** The request body: bytes that do not decode as text (`UnicodeDecodeError`), text that is not
      JSON (`JSONDecodeError`), a JSON value that is not an object (it has no `get`), or an
      object. */
  datatype QuestionnaireBody = NotText | NotJson | NotObject | Object(data: QuestionnaireData)

  /** A null first or last name: the account cannot be saved. */
  predicate NullName(data: QuestionnaireData) {
    data.firstName.Null? || data.lastName.Null?
  }

  /** A null username, gender, experience or goal: the profile cannot be saved. */
  predicate NullProfileText(data: QuestionnaireData) {
    data.username.Null? || data.gender.Null? || data.experience.Null? || data.goal.Null?
  }

  /** `profile.save()` succeeds: no text column is given null and the days fit the 32-bit
      `workout_days_per_week` column (`IntegerField`); otherwise it raises and writes nothing. */
  predicate SaveAccepted(data: QuestionnaireData, days: int) {
    !NullProfileText(data) && IsInt32(days)
  }

  /** What `for motivation in motivations` visits: a list's items, or a string's characters one
      by one; `None` is the `TypeError` on a value that is not iterable. */
  function Visited(m: MotivationValue): (v: Option<seq<string>>)
    ensures v.None? <==> m.NotIterable?
    ensures m.Items? ==> v == Some(m.values)
    ensures m.Text? ==>
      v.Some? && |v.value| == |m.text| && forall i :: 0 <= i < |m.text| ==> v.value[i] == [m.text[i]]
  {
    match m
    case Items(values) => Some(values)
    case Text(text) => Some(seq(|text|, i requires 0 <= i < |text| => [text[i]]))
    case NotIterable => None
  }

  /** A motivation sent as a string with a repeated character creates the same one-letter row
      twice, which the unique rows refuse. */
  lemma RepeatedLetterRepeats(text: string, i: nat, j: nat)
    requires i < j < |text| && text[i] == text[j]
    ensures !NoDuplicates(Visited(Text(text)).value)
  {
    var v := Visited(Text(text)).value;
    assert v[i] == [text[i]] == v[j];
  }

  /** The motivation rows after the view: the user's rows deleted, then one row per visited value
      up to the first that already exists; a value that is not iterable stops after the delete. */
  function MotivationRows(ms: seq<Motivation>, user: nat, m: MotivationValue): seq<Motivation> {
    match Visited(m)
    case None => WithoutUser(ms, user)
    case Some(values) => WithoutUser(ms, user) + RowsFor(user, values[..FirstRepeat(values)])
  }

  /** Every visited value is stored exactly when the loop meets no repeat. */
  predicate MotivationsStored(m: MotivationValue) {
    Visited(m).Some? && NoDuplicates(Visited(m).value)
  }

  datatype QuestionnaireReply =
    | BadRequest
    | ServerError
    | AlreadyRegistered
    | Saved(userId: nat, profileId: nat, isNewUser: bool)

  /** The account name the questionnaire registers a Telegram user under. */
  function TelegramLogin(t: int): string {
    "telegram_" + IntToString(t)
  }

  /** Distinct Telegram ids get distinct account names. */
  lemma TelegramLoginInjective(a: int, b: int)
    requires TelegramLogin(a) == TelegramLogin(b)
    ensures a == b
  {
    var sa, sb := IntToString(a), IntToString(b);
    assert "telegram_" + sa == "telegram_" + sb;
    assert sa == (TelegramLogin(a))[9..] == sb;
    if a < 0 && b < 0 {
      assert sa[1..] == sb[1..];
      NatToStringInjective(-a, -b);
    } else if a >= 0 && b >= 0 {
      NatToStringInjective(a, b);
    }
  }

  function FirstName(data: QuestionnaireData): string {
    data.firstName.Or("User")
  }

  /** The answers the questionnaire writes onto profile `s` before saving it. */
  function Answers(s: ProfileState, t: int, data: QuestionnaireData, days: int, weight: real): (a: ProfileState)
    ensures a.telegram == s.telegram.(telegramId := Some(t), telegramUsername := data.username.Or(""))
    ensures a.personal == s.personal.(name := FirstName(data), gender := data.gender.Or(Male))
    ensures a.measurements == s.measurements.(weight := Some(weight))
    ensures a.onboarding ==
      OnboardingInfo(data.experience.Or("beginner"), data.goal.Or("build_body"), Some(days))
    ensures a.onboardingCompleted
    ensures a.settings == s.settings && a.subscription == s.subscription
  {
    s.(telegram := s.telegram.(telegramId := Some(t), telegramUsername := data.username.Or("")),
       personal := s.personal.(name := FirstName(data), gender := data.gender.Or(Male)),
       measurements := s.measurements.(weight := Some(weight)),
       onboarding := OnboardingInfo(data.experience.Or("beginner"), data.goal.Or("build_body"), Some(days)),
       onboardingCompleted := true)
  }

  /** A questionnaire that leaves every optional answer out stores the defaults: male, beginner,
      "build_body", 3 days a week, 63 kg, and marks onboarding completed. */
  lemma QuestionnaireDefaults(s: ProfileState, t: int, data: QuestionnaireData)
    requires data.gender.Missing? && data.experience.Missing? && data.goal.Missing?
    requires data.days.Absent? && data.weight.Absent?
    ensures var a := Answers(s, t, data, DaysAnswer(data.days).value, WeightAnswer(data.weight).value);
      && a.personal.gender == Male
      && a.onboarding == OnboardingInfo("beginner", "build_body", Some(3))
      && a.measurements.weight == Some(63.0)
      && a.onboardingCompleted
  {
  }

  /** `int(data.get('days', 3))`: `None` is the conversion error. */
  function DaysAnswer(days: Parsed<int>): (d: Option<int>)
    ensures days.Absent? ==> d == Some(3)
    ensures days.Invalid? <==> d.None?
  {
    match days
    case Absent => Some(3)
    case Value(v) => Some(v)
    case Invalid => None
  }

  /** `float(data.get('weight', 63))`: `None` is the conversion error. */
  function WeightAnswer(weight: Parsed<real>): (w: Option<real>)
    ensures weight.Absent? ==> w == Some(63.0)
    ensures weight.Invalid? <==> w.None?
  {
    match weight
    case Absent => Some(63.0)
    case Value(v) => Some(v)
    case Invalid => None
  }

  /** `User.objects.get_or_create(username=login, defaults=names)`, followed, when the user
      already existed, by overwriting the first and last name. */
  method GetOrCreateUser(db: ProfileDb, login: string, firstName: string, lastName: string)
    returns (u: nat, created: bool)
    requires db.Valid()
    modifies db
    ensures db.Valid()
    ensures created <==> old(db.UsersNamed(login)) == {}
    ensures db.users == old(db.users)[u := User(login, firstName, lastName)]
    ensures !created ==> u in old(db.users)
    ensures created ==> u !in old(db.users)
    ensures db.profiles == old(db.profiles) && db.motivations == old(db.motivations)
    ensures db.nextProfileId == old(db.nextProfileId)
  {
    var named := db.UsersNamed(login);
    if named == {} {
      u := db.CreateUser(login, firstName, lastName);
      created := true;
    } else {
      u :| u in named;
      created := false;
      db.users := db.users[u := User(login, firstName, lastName)];
      assert db.Valid() by {
        forall a, b | a in db.users && b in db.users && a != b
          ensures db.users[a].username != db.users[b].username
        {
          if a != u && b != u {
            assert db.users[a] == old(db.users)[a] && db.users[b] == old(db.users)[b];
          }
        }
      }
    }
  }

  /** `UserProfile.objects.get_or_create(user=u, defaults=...)`: the user's profile, or a new one
      with the field values `s`. */
  method GetOrCreateProfile(db: ProfileDb, u: nat, s: ProfileState) returns (p: UserProfile)
    requires db.Valid() && u in db.users
    requires s.telegram.telegramId.Some? ==> db.TelegramMatches(s.telegram.telegramId) == {}
    modifies db
    ensures db.Valid()
    ensures p.id in db.profiles && db.profiles[p.id] == p && p.user == u
    ensures p.id in old(db.profiles) <==> old(db.ProfilesOf(u)) != {}
    ensures p.id in old(db.profiles) ==> db.profiles == old(db.profiles)
    ensures p.id !in old(db.profiles) ==>
      fresh(p) && p.State() == s && db.profiles == old(db.profiles)[p.id := p]
    ensures db.users == old(db.users) && db.motivations == old(db.motivations)
  {
    var mine := db.ProfilesOf(u);
    if mine == {} {
      p := db.CreateProfile(u, s);
    } else {
      var k :| k in mine;
      p := db.profiles[k];
    }
  }

  /** The in-memory assignments of the questionnaire, saved in one go. */
  method StoreAnswers(p: UserProfile, t: int, data: QuestionnaireData, days: int, weight: real)
    modifies p
    ensures p.State() == Answers(old(p.State()), t, data, days, weight)
  {
    p.telegram := p.telegram.(telegramId := Some(t), telegramUsername := data.username.Or(""));
    p.personal := p.personal.(name := FirstName(data), gender := data.gender.Or(Male));
    p.measurements := p.measurements.(weight := Some(weight));
    p.onboarding := OnboardingInfo(data.experience.Or("beginner"), data.goal.Or("build_body"), Some(days));
    p.onboardingCompleted := true;
  }

  /** `profile.save()` of the answers onto profile `p` of the table: refused, with the row left
      as it was, when a column rejects its value; `t` is held by no other profile, so the
      telegram ids stay unique. */
  method SaveAnswers(db: ProfileDb, p: UserProfile, t: int, data: QuestionnaireData, days: int, weight: real)
    returns (saved: bool)
    requires db.Valid() && p.id in db.profiles && db.profiles[p.id] == p
    requires forall k :: k in db.profiles && k != p.id ==> db.profiles[k].telegram.telegramId != Some(t)
    modifies p
    ensures db.Valid()
    ensures saved <==> SaveAccepted(data, days)
    ensures p.State() == if saved then Answers(old(p.State()), t, data, days, weight) else old(p.State())
  {
    if !SaveAccepted(data, days) {
      return false;
    }
    StoreAnswers(p, t, data, days, weight);
    saved := true;
  }

  /** The answers saved on profile `p`, then its user's motivations replaced; `ok` is false when
      the save or the loop raises, and a refused save leaves the motivations alone. */
  method AnswerQuestionnaire(db: ProfileDb, p: UserProfile, t: int, data: QuestionnaireData, days: int, weight: real)
    returns (ok: bool)
    requires db.Valid() && p.id in db.profiles && db.profiles[p.id] == p
    requires forall k :: k in db.profiles && k != p.id ==> db.profiles[k].telegram.telegramId != Some(t)
    modifies db, p
    ensures db.Valid()
    ensures ok <==> SaveAccepted(data, days) && MotivationsStored(data.motivation)
    ensures p.State() == if SaveAccepted(data, days) then Answers(old(p.State()), t, data, days, weight) else old(p.State())
    ensures db.users == old(db.users) && db.profiles == old(db.profiles)
    ensures db.motivations ==
      if SaveAccepted(data, days) then MotivationRows(old(db.motivations), p.user, data.motivation)
      else old(db.motivations)
  {
    var saved := SaveAnswers(db, p, t, data, days, weight);
    if !saved {
      return false;
    }
    match Visited(data.motivation) {
      case None =>
        var _ := db.ReplaceMotivations(p.user, []);
        assert RowsFor(p.user, []) == [];
        assert WithoutUser(old(db.motivations), p.user) + [] == WithoutUser(old(db.motivations), p.user);
        ok := false;
      case Some(values) =>
        ok := db.ReplaceMotivations(p.user, values);
    }
  }

  /** The profile the questionnaire creates when the user has none: the declared defaults with
      the telegram id and the first name. */
  function InitialProfile(t: int, data: QuestionnaireData): (s: ProfileState)
    ensures s.telegram.telegramId == Some(t) && s.personal.name == FirstName(data)
    ensures !s.onboardingCompleted
  {
    NewProfile.(telegram := NewProfile.telegram.(telegramId := Some(t)),
                personal := NewProfile.personal.(name := FirstName(data)))
  }

  /** The account of a registration: `telegram_<t>` found (and renamed) or created as `u`. */
  twostate predicate AccountRegistered(db: ProfileDb, t: int, data: QuestionnaireData, u: nat)
    reads db
  {
    && db.users == old(db.users)[u := User(TelegramLogin(t), FirstName(data), data.lastName.Or(""))]
    && (u in old(db.users) <==> old(db.UsersNamed(TelegramLogin(t))) != {})
  }

  /** The profile of a registration: the profile `p` of `u` found or added; every other profile
      unchanged. */
  twostate predicate ProfileRegistered(db: ProfileDb, u: nat, new p: UserProfile)
    reads db, db.profiles.Values
  {
    var i := p.id;
    && i in db.profiles && db.profiles[i] == p && p.user == u
    && (i in old(db.profiles) <==> old(db.ProfilesOf(u)) != {})
    && (i in old(db.profiles) ==> db.profiles == old(db.profiles))
    && (i !in old(db.profiles) ==> db.profiles == old(db.profiles)[i := p])
    && (forall k :: k in old(db.profiles) && k != i ==>
          db.profiles[k] == old(db.profiles[k]) && unchanged(db.profiles[k]))
  }

  /** The answers of a registration: a failing `int(days)` or `float(weight)` raises before the
      profile is saved, and a null text answer or days beyond 32 bits make the save raise;
      otherwise the answers are saved on `p` (found, or created as
      `InitialProfile`) and the motivation rows replaced, as far as the loop gets. */
  twostate predicate AnswersRegistered(db: ProfileDb, t: int, data: QuestionnaireData, u: nat, new p: UserProfile)
    reads db, db.profiles.Values, p
  {
    var i := p.id;
    var before := if i in old(db.profiles) then old(db.profiles[i].State()) else InitialProfile(t, data);
    var days := DaysAnswer(data.days);
    var weight := WeightAnswer(data.weight);
    if days.None? || weight.None? || !SaveAccepted(data, days.value) then
      p.State() == before && db.motivations == old(db.motivations)
    else
      && p.State() == Answers(before, t, data, days.value, weight.value)
      && db.motivations == MotivationRows(old(db.motivations), u, data.motivation)
  }

  /** What registering telegram id `t` leaves behind, for account `u` and profile `p`, whether it
      succeeds or raises part-way. */
  twostate predicate Registered(db: ProfileDb, t: int, data: QuestionnaireData, u: nat, new p: UserProfile)
    reads db, db.profiles.Values, p
  {
    && AccountRegistered(db, t, data, u)
    && ProfileRegistered(db, u, p)
    && AnswersRegistered(db, t, data, u, p)
  }

  /** The account and the profile of a registration, before any answer is saved. */
  method OpenProfile(db: ProfileDb, t: int, data: QuestionnaireData) returns (u: nat, created: bool, p: UserProfile)
    requires db.Valid() && db.TelegramMatches(Some(t)) == {}
    modifies db
    ensures db.Valid()
    ensures AccountRegistered(db, t, data, u) && ProfileRegistered(db, u, p)
    ensures created <==> u !in old(db.users)
    ensures p.id in old(db.profiles) ==> p == old(db.profiles[p.id])
    ensures p.id !in old(db.profiles) ==> fresh(p)
    ensures p.State() == if p.id in old(db.profiles) then old(db.profiles[p.id].State()) else InitialProfile(t, data)
    ensures forall k :: k in db.profiles && k != p.id ==> db.profiles[k].telegram.telegramId != Some(t)
    ensures db.motivations == old(db.motivations)
  {
    u, created := GetOrCreateUser(db, TelegramLogin(t), FirstName(data), data.lastName.Or(""));
    p := GetOrCreateProfile(db, u, InitialProfile(t, data));
  }

  /** The registering part of the questionnaire, for a telegram id `t` that no profile holds:
      `u` and `p` are the account and the profile it found or created. A null name makes the
      account's save raise before anything is written, and then there is no profile (`null`). */
  method Register(db: ProfileDb, t: int, data: QuestionnaireData) returns (r: QuestionnaireReply, u: nat, p: UserProfile?)
    requires db.Valid() && db.TelegramMatches(Some(t)) == {}
    modifies db, db.profiles.Values
    ensures db.Valid()
    ensures p == null <==> NullName(data)
    ensures p == null ==> r == ServerError && unchanged(db) && unchanged(db.profiles.Values)
    ensures p != null ==> Registered(db, t, data, u, p)
    ensures r.Saved? || r == ServerError
    ensures r.Saved? <==>
      && !NullName(data) && !data.days.Invalid? && !data.weight.Invalid?
      && SaveAccepted(data, DaysAnswer(data.days).value) && MotivationsStored(data.motivation)
    ensures r.Saved? ==> p != null && r == Saved(u, p.id, u !in old(db.users))
    ensures r.Saved? ==>
      db.motivations == WithoutUser(old(db.motivations), u) + RowsFor(u, Visited(data.motivation).value)
  {
    if NullName(data) {
      return ServerError, 0, null;
    }
    var created, q;
    u, created, q := OpenProfile(db, t, data);
    p := q;
    var days := DaysAnswer(data.days);
    var weight := WeightAnswer(data.weight);
    if days.None? || weight.None? {
      return ServerError, u, p;
    }
    label Saving:
    var ok := AnswerQuestionnaire(db, q, t, data, days.value, weight.value);
    assert AccountRegistered(db, t, data, u);
    assert ProfileRegistered(db, u, q) by {
      assert db.profiles == old@Saving(db.profiles);
      forall k | k in old(db.profiles) && k != q.id
        ensures db.profiles[k] == old(db.profiles[k]) && unchanged(db.profiles[k])
      {
        assert db.profiles[k].id == k;
        assert unchanged@Saving(db.profiles[k]);
      }
    }
    if !ok {
      return ServerError, u, p;
    }
    var values := Visited(data.motivation).value;
    FirstRepeatNoDuplicates(values);
    assert values[..|values|] == values;
    r := Saved(u, q.id, created);
  }

  /** `QuestionnaireSubmitView.post`. Text that is not JSON or a missing telegram id answers 400
      and a telegram id that already has a profile answers success, all without writing; bytes
      that are not text, a JSON value that is not an object and an id the column rejects answer
      500 before any write, and so does a null name. Otherwise the Telegram user is registered
      (`Registered`), and the answer is success exactly when the conversions, the profile's save
      (no null text, days within 32 bits) and the motivation loop all succeed, 500 otherwise, after the writes that came before. */
  method QuestionnaireSubmit(db: ProfileDb, body: QuestionnaireBody) returns (r: QuestionnaireReply)
    requires db.Valid()
    modifies db, db.profiles.Values
    ensures db.Valid()
    ensures (body.NotJson? || (body.Object? && body.data.telegramId.Absent?)) ==>
      r == BadRequest && unchanged(db) && unchanged(db.profiles.Values)
    ensures (body.NotText? || body.NotObject? || (body.Object? && body.data.telegramId.Invalid?)) ==>
      r == ServerError && unchanged(db) && unchanged(db.profiles.Values)
    ensures body.Object? && body.data.telegramId.Value? &&
            old(db.TelegramMatches(Some(body.data.telegramId.v))) != {} ==>
      r == AlreadyRegistered && unchanged(db) && unchanged(db.profiles.Values)
    ensures body.Object? && body.data.telegramId.Value? &&
            old(db.TelegramMatches(Some(body.data.telegramId.v))) == {} && NullName(body.data) ==>
      r == ServerError && unchanged(db) && unchanged(db.profiles.Values)
    ensures body.Object? && body.data.telegramId.Value? &&
            old(db.TelegramMatches(Some(body.data.telegramId.v))) == {} && !NullName(body.data) ==>
      exists u: nat, p: UserProfile ::
        && Registered(db, body.data.telegramId.v, body.data, u, p)
        && (r.Saved? ==> r == Saved(u, p.id, u !in old(db.users)))
    ensures r.Saved? <==>
      && body.Object? && body.data.telegramId.Value?
      && old(db.TelegramMatches(Some(body.data.telegramId.v))) == {}
      && !NullName(body.data) && !body.data.days.Invalid? && !body.data.weight.Invalid?
      && SaveAccepted(body.data, DaysAnswer(body.data.days).value)
      && MotivationsStored(body.data.motivation)
  {
    if body.NotText? || body.NotObject? {
      return ServerError;
    }
    if body.NotJson? {
      return BadRequest;
    }
    var data := body.data;
    match data.telegramId {
      case Absent =>
        return BadRequest;
      case Invalid =>
        return ServerError;
      case Value(t) =>
        if db.TelegramMatches(Some(t)) != {} {
          return AlreadyRegistered;
        }
        var u, p;
        r, u, p := Register(db, t, data);
    }
  }

  // ===== Profile lookups shared by the form views =====

  /** `UserProfile.objects.get(user=u)`: the user's profile, or `null` for `DoesNotExist`. */
  method ProfileOf(db: ProfileDb, u: nat) returns (p: UserProfile?)
    requires db.Valid()
    ensures p == null <==> db.ProfilesOf(u) == {}
    ensures p != null ==> p.id in db.profiles && db.profiles[p.id] == p && p.user == u
    ensures p != null ==> db.ProfilesOf(u) == {p.id}
  {
    var mine := db.ProfilesOf(u);
    if mine == {} {
      return null;
    }
    var k :| k in mine;
    assert mine == {k} by {
      forall j | j in mine ensures j == k {}
    }
    p := db.profiles[k];
  }

  /** Overwrites the groups a form may change. The telegram group is untouched, so the table
      stays valid. */
  method WriteProfile(db: ProfileDb, p: UserProfile, s: ProfileState)
    requires db.Valid() && p.id in db.profiles && db.profiles[p.id] == p
    requires s.telegram == p.telegram && s.onboarding == p.onboarding
    requires s.onboardingCompleted == p.onboardingCompleted
    modifies p
    ensures db.Valid()
    ensures p.State() == s
  {
    p.personal := s.personal;
    p.measurements := s.measurements;
    p.settings := s.settings;
    p.subscription := s.subscription;
  }

  // ===== UpdateProfileView =====

  /** The POST values of the profile form. An absent value is the empty string (the view's
      truthiness tests treat `None` and `''` alike); `birthDate` is how Django's date field parses
      the text at `save()`, `weight` and `height` the outcome of `float(...)`, each `Absent` when
      the value is empty. The avatar upload is not part of this model. */
  datatype ProfileForm = ProfileForm(
    name: string, gender: string, birthDate: Parsed<Ymd>,
    weight: Parsed<real>, height: Parsed<real>, unit: string)

  datatype FormOutcome =
    | Rejected(error: string)
    | SaveFails(exception: string)
    | Updated(s: ProfileState)

  const InvalidWeight := "Invalid weight value"
  const InvalidHeight := "Invalid height value"

  /** The whitelist of `UpdateProfileView.post` applied to a profile `s`. */
  function ApplyProfileForm(s: ProfileState, f: ProfileForm): (r: FormOutcome)
    // the checks come in the view's order, and a rejected value answers before anything is saved
    ensures r == Rejected(InvalidWeight) <==> f.weight.Invalid?
    ensures r == Rejected(InvalidHeight) <==> !f.weight.Invalid? && f.height.Invalid?
    ensures r.SaveFails? <==> !f.weight.Invalid? && !f.height.Invalid? && f.birthDate.Invalid?
    ensures r.SaveFails? ==> r.exception == "ValidationError"
    ensures r.Rejected? ==> r == Rejected(InvalidWeight) || r == Rejected(InvalidHeight)
    // a form with no rejected value is always saved
    ensures r.Updated? <==> !f.weight.Invalid? && !f.height.Invalid? && !f.birthDate.Invalid?
    ensures r.Updated? ==>
      // the name changes exactly when a non-empty one is sent
      && (f.name != "" ==> r.s.personal.name == f.name)
      && (f.name == "" ==> r.s.personal.name == s.personal.name)
      // the gender only ever becomes male or female
      && (f.gender in {Male, Female} ==> r.s.personal.gender == f.gender)
      && (f.gender !in {Male, Female} ==> r.s.personal.gender == s.personal.gender)
      && (f.birthDate.Value? ==> r.s.personal.birthDate == Some(f.birthDate.v))
      && (f.birthDate.Absent? ==> r.s.personal.birthDate == s.personal.birthDate)
      && (f.weight.Value? ==> r.s.measurements.weight == Some(f.weight.v))
      && (f.weight.Absent? ==> r.s.measurements.weight == s.measurements.weight)
      && (f.height.Value? ==> r.s.measurements.height == Some(f.height.v))
      && (f.height.Absent? ==> r.s.measurements.height == s.measurements.height)
      // the unit only ever becomes "metric" or "imperial"
      && (f.unit in {Metric, "imperial"} ==> r.s.settings.unitSystem == f.unit)
      && (f.unit !in {Metric, "imperial"} ==> r.s.settings.unitSystem == s.settings.unitSystem)
      // no other field is touched
      && r.s.settings.language == s.settings.language
      && r.s.telegram == s.telegram && r.s.onboarding == s.onboarding
      && r.s.onboardingCompleted == s.onboardingCompleted && r.s.subscription == s.subscription
  {
    if f.weight.Invalid? then Rejected(InvalidWeight)
    else if f.height.Invalid? then Rejected(InvalidHeight)
    else if f.birthDate.Invalid? then SaveFails("ValidationError")
    else
      var personal := s.personal.(
        name := if f.name != "" then f.name else s.personal.name,
        gender := if f.gender in {Male, Female} then f.gender else s.personal.gender,
        birthDate := if f.birthDate.Value? then Some(f.birthDate.v) else s.personal.birthDate);
      var measurements := Measurements(
        if f.weight.Value? then Some(f.weight.v) else s.measurements.weight,
        if f.height.Value? then Some(f.height.v) else s.measurements.height);
      var unit := if f.unit in {Metric, "imperial"} then f.unit else s.settings.unitSystem;
      Updated(s.(personal := personal, measurements := measurements,
                 settings := s.settings.(unitSystem := unit)))
  }

  /** The form stores "imperial", a value outside the unit system's declared choices
      (metric/english), because the view saves without validating the model's choices. */
  lemma ImperialUnitStored(s: ProfileState, f: ProfileForm)
    requires f.unit == "imperial"
    requires !f.weight.Invalid? && !f.height.Invalid? && !f.birthDate.Invalid?
    ensures ApplyProfileForm(s, f).Updated?
    ensures ApplyProfileForm(s, f).s.settings.unitSystem == "imperial"
    ensures ApplyProfileForm(s, f).s.settings.unitSystem !in UnitChoices
  {
  }

  /** Sending the same form twice stores the same profile as sending it once. */
  lemma {:induction false} ApplyProfileFormIdempotent(s: ProfileState, f: ProfileForm)
    requires ApplyProfileForm(s, f).Updated?
    ensures ApplyProfileForm(ApplyProfileForm(s, f).s, f) == ApplyProfileForm(s, f)
  {
  }

  /** The profile the view leaves behind: the form's result when it is saved, else `s`. */
  function AfterForm(s: ProfileState, f: ProfileForm): ProfileState {
    var r := ApplyProfileForm(s, f);
    if r.Updated? then r.s else s
  }

  /** `UpdateProfileView.post`. An anonymous request answers 401 and writes nothing. Otherwise the
      user's profile is fetched or created with the declared defaults, the form is applied, and
      the profile is saved only when no value was rejected: 400 for a bad weight or height, an
      uncaught `ValidationError` for a bad birth date, 200 after the save. */
  method UpdateProfile(db: ProfileDb, user: Option<nat>, f: ProfileForm) returns (r: Reply, p: UserProfile?)
    requires db.Valid() && (user.Some? ==> user.value in db.users)
    modifies db, db.profiles.Values
    ensures db.Valid()
    ensures user.None? ==>
      r == Json(401, false) && p == null && unchanged(db) && unchanged(db.profiles.Values)
    ensures user.Some? ==>
      && p != null && p.id in db.profiles && db.profiles[p.id] == p && p.user == user.value
      && (p.id in old(db.profiles) <==> old(db.ProfilesOf(user.value)) != {})
      && (var i := p.id; i in old(db.profiles) ==> p.State() == AfterForm(old(db.profiles[i].State()), f))
      && (p.id !in old(db.profiles) ==> p.State() == AfterForm(NewProfile, f))
      && (p.id !in old(db.profiles) ==> db.profiles == old(db.profiles)[p.id := p])
      && (p.id in old(db.profiles) ==> db.profiles == old(db.profiles))
      && db.users == old(db.users) && db.motivations == old(db.motivations)
      && (forall q :: q in old(db.profiles.Values) && q != p ==> unchanged(q))
    ensures user.Some? ==>
      var i := p.id;
      var outcome := ApplyProfileForm(if i in old(db.profiles) then old(db.profiles[i].State()) else NewProfile, f);
      && (r == Json(200, true) <==> outcome.Updated?)
      && (r == Json(400, false) <==> outcome.Rejected?)
      && (r == Raised("ValidationError") <==> outcome.SaveFails?)
  {
    if user.None? {
      return Json(401, false), null;
    }
    p := GetOrCreateProfile(db, user.value, NewProfile);
    var outcome := ApplyProfileForm(p.State(), f);
    match outcome
    case Rejected(_) =>
      r := Json(400, false);
    case SaveFails(e) =>
      r := Raised(e);
    case Updated(s) =>
      WriteProfile(db, p, s);
      r := Json(200, true);
  }

  // ===== ChangeLanguageView =====

  /** The page `ChangeLanguageView` and the other settings views return to. */
  const SettingsPage := "users:settings"
  const AccountPage := "users:account_management"

  /** `ChangeLanguageView.post`: an anonymous request is sent to the login page. A language among
      uz/en/ru is stored on the user's profile (a user without one gets the uncaught
      `DoesNotExist`); any other value changes nothing. Both go back to the settings page. */
  method ChangeLanguage(db: ProfileDb, user: Option<nat>, language: Option<string>) returns (r: Reply)
    requires db.Valid()
    modifies db.profiles.Values
    ensures db.Valid()
    ensures user.None? ==> r == Redirect(LoginUrl)
    ensures user.Some? && (language.None? || language.value !in LanguageChoices) ==>
      r == Redirect(SettingsPage)
    ensures user.Some? && language.Some? && language.value in LanguageChoices ==>
      if old(db.ProfilesOf(user.value)) == {} then r == Raised("DoesNotExist")
      else r == Redirect(SettingsPage)
    ensures forall k :: k in db.profiles ==>
      db.profiles[k].State() ==
        if user.Some? && language.Some? && language.value in LanguageChoices && db.profiles[k].user == user.value
        then old(db.profiles[k].State()).(settings := old(db.profiles[k].settings).(language := language.value))
        else old(db.profiles[k].State())
  {
    if user.None? {
      return Redirect(LoginUrl);
    }
    if language.Some? && language.value in LanguageChoices {
      var p := ProfileOf(db, user.value);
      if p == null {
        return Raised("DoesNotExist");
      }
      p.settings := p.settings.(language := language.value);
    }
    r := Redirect(SettingsPage);
  }

  // ===== CancelSubscriptionView =====

  /** The subscription dates after a cancel: both cleared, everything else kept. */
  function Cancelled(sub: SubscriptionInfo): (c: SubscriptionInfo)
    ensures c.startDate.None? && c.endDate.None?
    ensures c.paymentMethod == sub.paymentMethod && c.price == sub.price
  {
    sub.(startDate := None, endDate := None)
  }

  /** A cancelled subscription is not active on any day and has no days left to renewal. */
  lemma CancelledNotSubscribed(sub: SubscriptionInfo, today: int)
    ensures !SubscribedOn(Cancelled(sub), today)
    ensures DaysUntilRenewalOn(Cancelled(sub), today) == 0
  {
  }

  /** `CancelSubscriptionView.post`: clears the user's subscription start and end dates and goes
      back to the account page; a user without a profile gets the uncaught `DoesNotExist`. */
  method CancelSubscription(db: ProfileDb, user: Option<nat>) returns (r: Reply)
    requires db.Valid()
    modifies db.profiles.Values
    ensures db.Valid()
    ensures user.None? ==> r == Redirect(LoginUrl)
    ensures user.Some? ==>
      if old(db.ProfilesOf(user.value)) == {} then r == Raised("DoesNotExist")
      else r == Redirect(AccountPage)
    ensures forall k :: k in db.profiles ==>
      db.profiles[k].State() ==
        if user.Some? && db.profiles[k].user == user.value
        then old(db.profiles[k].State()).(subscription := Cancelled(old(db.profiles[k].subscription)))
        else old(db.profiles[k].State())
    ensures forall k, today :: k in db.profiles && user.Some? && db.profiles[k].user == user.value ==>
      !db.profiles[k].IsSubscribed(today)
  {
    if user.None? {
      return Redirect(LoginUrl);
    }
    var p := ProfileOf(db, user.value);
    if p == null {
      return Raised("DoesNotExist");
    }
    p.subscription := Cancelled(p.subscription);
    r := Redirect(AccountPage);
  }

  // ===== telegram_auth_view =====

  /** Where `telegram_auth_view` sends the Mini App. */
  datatype AuthRoute =
    | MethodNotAllowed
    | MissingTelegramId
    | AuthError
    | ToWorkouts(userId: nat)
    | ToQuestionnaire(isNewUser: bool)

  /** `telegram_auth_view`: only POST is served (405). A body that is not a JSON object (`None`)
      or an id the column rejects is a 500; a missing or falsy id a 400. A known Telegram id is logged in and sent to
      the workouts once onboarding is completed, to the questionnaire otherwise; an unknown one is
      sent to the questionnaire as a new user. Nothing is written. */
  method TelegramAuthRoute(db: ProfileDb, isPost: bool, body: Option<Parsed<int>>) returns (r: AuthRoute)
    requires db.Valid()
    ensures !isPost <==> r == MethodNotAllowed
    ensures isPost && (body.None? || body.value.Invalid?) <==> r == AuthError
    ensures isPost && body.Some? && body.value.Absent? <==> r == MissingTelegramId
    ensures r.ToQuestionnaire? && r.isNewUser <==>
      isPost && body.Some? && body.value.Value? && db.TelegramMatches(Some(body.value.v)) == {}
    ensures r == ToQuestionnaire(false) <==>
      isPost && body.Some? && body.value.Value? &&
      exists k :: k in db.TelegramMatches(Some(body.value.v)) && !db.profiles[k].onboardingCompleted
    ensures r.ToWorkouts? <==>
      isPost && body.Some? && body.value.Value? &&
      exists k :: k in db.TelegramMatches(Some(body.value.v)) && db.profiles[k].onboardingCompleted
    ensures r.ToWorkouts? ==>
      exists k :: k in db.TelegramMatches(Some(body.value.v)) && db.profiles[k].user == r.userId
  {
    if !isPost {
      return MethodNotAllowed;
    }
    if body.None? {
      return AuthError;
    }
    match body.value
    case Absent =>
      r := MissingTelegramId;
    case Invalid =>
      r := AuthError;
    case Value(t) =>
      var ks := db.TelegramMatches(Some(t));
      if ks == {} {
        return ToQuestionnaire(true);
      }
      var k :| k in ks;
      assert ks == {k} by {
        forall j | j in ks ensures j == k {}
      }
      var profile := db.profiles[k];
      if profile.onboardingCompleted {
        r := ToWorkouts(profile.user);
      } else {
        r := ToQuestionnaire(false);
      }
  }
}
