/**
 * The top-level client state machine (App.tsx): login, first-time setup,
 * the practice session and its submission. Every network answer a handler
 * awaits is an input; the requests it sends are outputs. Rendering, alerts,
 * timers and localStorage are not part of the model.
 */
module App {
  import opened Wrappers
  import opened Types
  import opened Http
  import opened Constants
  import opened KvStore
  import StorageService
  import AiService
  import ConfigApi
  import HistoryApi
  import ProfileApi
  import AuthApi
  import ShareCard
  import QueryString

  datatype Screen = Login | Welcome | ConfigScreen | Dashboard | TopicSelection | Learning | Writing | ResultScreen

  /** The component's `useState` cells; `profile` is the document /api/profile served, as the client keeps it. */
  datatype State = State(
    screen: Screen,
    profile: Option<Value>,
    history: seq<HistoryRecord>,
    initializing: bool,
    username: string,
    password: string,
    authError: string,
    tempApiKey: string,
    tempProvider: string,
    tempModel: string,
    topic: string,
    mode: Mode,
    content: string,
    evaluation: Option<EvaluationResult>,
    processing: bool)

  const Initial: State :=
    State(Login, None, [], true, "", "", "", "", "gemini", "gemini-2.0-flash", "", Essay, "", None, false)

  /** `profile.config` is truthy: a stored config object. */
  predicate HasConfig(p: Value) { p.Obj? && p.config.Present? }

  /** `profile.level` is truthy: every level value is non-empty text. */
  predicate HasLevel(p: Value) { p.Obj? && p.level.Present? }

  /** Where a freshly loaded profile lands. */
  function Landing(p: Value): (r: Screen)
    ensures r == ConfigScreen <==> !HasConfig(p)
    ensures r == Welcome <==> HasConfig(p) && !HasLevel(p)
    ensures r == Dashboard <==> HasConfig(p) && HasLevel(p)
  {
    if !HasConfig(p) then ConfigScreen
    else if !HasLevel(p) then Welcome
    else Dashboard
  }

  /**
   * `handleAuthSuccess` as written: the loaded document is kept as is.
   * `loaded` is what `getProfile` resolved to; `hist` is the history list,
   * `None` when `getHistory` rejects, which leaves `initializing` set.
   */
  function AuthSuccessAsWritten(s: State, loaded: Option<Value>, hist: Option<seq<HistoryRecord>>): (r: State)
    ensures loaded.None? ==> r == s.(initializing := false)
    ensures loaded.Some? ==> r.profile == loaded
    ensures loaded.Some? && hist.Some? ==>
              r == s.(profile := loaded, history := hist.value, screen := Landing(loaded.value), initializing := false)
    ensures loaded.Some? && hist.None? ==> r.screen == s.screen && r.initializing
  {
    match loaded
    case None => s.(initializing := false)
    case Some(p) =>
      match hist
      case None => s.(profile := loaded, initializing := true)
      case Some(h) => s.(profile := loaded, history := h, screen := Landing(p), initializing := false)
  }

  /** The loaded document with the signed-in name filled in where it has none. */
  function Named(p: Value, name: string): (r: Value)
    ensures p.Obj? ==> r.Obj? && r.username == Present(name)
    ensures p.Obj? ==> r.(username := p.username) == p
    ensures p.Arr? ==> r == p
  {
    if p.Obj? then p.(username := Present(name)) else p
  }

  /**
   * `handleAuthSuccess` as evidently intended: the profile the client holds
   * carries the name that was signed in with, also when /api/profile served
   * its defaults.
   */
  function AuthSuccess(s: State, name: string, loaded: Option<Value>, hist: Option<seq<HistoryRecord>>): (r: State)
    ensures loaded.None? ==> r == s.(initializing := false)
    ensures loaded.Some? && loaded.value.Obj? ==> r.profile.Some? && r.profile.value.Obj? && r.profile.value.username == Present(name)
    ensures loaded.Some? && hist.Some? ==> r.screen == Landing(loaded.value) && r.history == hist.value && !r.initializing
  {
    match loaded
    case None => s.(initializing := false)
    case Some(p) => AuthSuccessAsWritten(s, Some(Named(p, name)), hist)
  }

  /** What `handleLogin` does, and whether it goes on to `handleAuthSuccess(username)`. */
  datatype LoginStep = LoginStep(state: State, signedIn: Option<string>)

  /**
   * `handleLogin`; `res` is the /api/auth answer reduced to its `error` field,
   * with `body == None` when `res.json()` rejects.
   */
  function HandleLogin(s: State, res: Fetched<Field<string>>): (r: LoginStep)
    ensures s.username == "" || s.password == "" ==> r == LoginStep(s, None)
    ensures r.signedIn.Some? <==> s.username != "" && s.password != "" && res.Responded? && res.ok && res.body.Some?
    ensures r.signedIn.Some? ==> r.signedIn.value == s.username && r.state.authError == ""
    ensures s.username != "" && s.password != "" && (res.Threw? || res.body.None?) ==> r.state.authError == "Connection error"
    ensures s.username != "" && s.password != "" && res.Responded? && !res.ok && res.body.Some? ==>
              r.state.authError == (if Truthy(res.body.value) then res.body.value.value else "Auth failed")
    ensures r.state.(authError := s.authError, processing := s.processing) == s
  {
    if s.username == "" || s.password == "" then LoginStep(s, None)
    else
      var s1 := s.(authError := "", processing := false);
      match res
      case Threw(_) => LoginStep(s1.(authError := "Connection error"), None)
      case Responded(ok, _, body) =>
        if body.None? then LoginStep(s1.(authError := "Connection error"), None)
        else if ok then LoginStep(s1, Some(s.username))
        else LoginStep(s1.(authError := if Truthy(body.value) then body.value.value else "Auth failed"), None)
  }

  /** A login against the auth handler: the right password signs in, a wrong one shows the server's message. */
  lemma LoginAgainstServer(s: State, store: Store)
    requires s.username != "" && s.password != ""
    requires UserKey(s.username) in store
    ensures var resp := AuthApi.HandleAuth(AuthApi.LoginRequest(s.username, s.password), store).response;
            var r := HandleLogin(s, StorageService.Delivered(resp));
            && (PasswordOf(store[UserKey(s.username)]) == Present(s.password) ==> r.signedIn == Some(s.username))
            && (PasswordOf(store[UserKey(s.username)]) != Present(s.password) ==>
                  r.signedIn.None? && r.state.authError == "Invalid password")
  {
  }

  /** What `handleSaveConfig` does, and the /api/config request it sends. */
  datatype ConfigStep = ConfigStep(state: State, sent: Option<ConfigApi.ConfigRequest>)

  /** `{ ...userProfile, config }` for the object profiles the client holds. */
  function WithClientConfig(p: Value, c: UserConfig): (r: Value)
    ensures r.Obj? && r.config == Present(c)
    ensures p.Obj? ==> r.(config := p.config) == p
  {
    if p.Obj? then p.(config := Present(c)) else EmptyObj.(config := Present(c))
  }

  /**
   * `handleSaveConfig`. `delivered` is false when the /api/config fetch
   * rejects; the handler then stops with `processing` still set.
   */
  function HandleSaveConfig(s: State, delivered: bool): (r: ConfigStep)
    ensures s.profile.None? || s.tempApiKey == "" ==> r == ConfigStep(s, None)
    ensures r.sent.Some? <==> s.profile.Some? && s.tempApiKey != ""
    ensures r.sent.Some? ==>
              var c := UserConfig(s.tempApiKey, s.tempProvider, s.tempModel);
              && r.sent.value.config == Present(c)
              && r.sent.value.username == (if s.profile.value.Obj? then s.profile.value.username else Absent)
              && (delivered ==>
                    && r.state.profile == Some(WithClientConfig(s.profile.value, c))
                    && r.state.screen == (if HasLevel(s.profile.value) then Dashboard else Welcome)
                    && !r.state.processing)
              && (!delivered ==> r.state == s.(processing := true))
  {
    if s.profile.None? || s.tempApiKey == "" then ConfigStep(s, None)
    else
      var p := s.profile.value;
      var c := UserConfig(s.tempApiKey, s.tempProvider, s.tempModel);
      var req := ConfigApi.ConfigRequest(if p.Obj? then p.username else Absent, Present(c));
      if !delivered then ConfigStep(s.(processing := true), Some(req))
      else
        var updated := WithClientConfig(p, c);
        ConfigStep(s.(profile := Some(updated), screen := if HasLevel(updated) then Dashboard else Welcome, processing := false), Some(req))
  }

  /** `startNewSession`. */
  function StartNewSession(s: State): (r: State)
    ensures r.screen == TopicSelection && r.topic == "" && r.evaluation.None? && r.content == ""
    ensures r.(screen := s.screen, topic := s.topic, evaluation := s.evaluation, content := s.content) == s
  {
    s.(screen := TopicSelection, topic := "", evaluation := None, content := "")
  }

  /** What `handleSubmitWriting` does and the two requests it sends. */
  datatype SubmitStep = SubmitStep(
    state: State,
    award: Option<ProfileApi.ProfileUpdate>,
    posted: Option<HistoryApi.HistoryPost>,
    newBadges: seq<string>)

  /** The client's `UserProfile` type: an object with points and a badge list. */
  predicate ProfileShaped(s: State) {
    s.profile.Some? ==> StorageService.Awardable(s.profile.value)
  }

  /** Submission is possible when the profile names a user and has a level. */
  predicate CanSubmit(s: State) {
    s.profile.Some? && s.profile.value.Obj? && Truthy(s.profile.value.username) && HasLevel(s.profile.value)
  }

  /**
   * `handleSubmitWriting`. Inputs: the evaluation outcome, the document
   * `saveProfile` resolved to (`None` when it rejects), whether `addHistory`
   * resolved, and the record's id and date.
   */
  function HandleSubmit(
    s: State, content: string,
    evaluated: Result<EvaluationResult, AiService.ServiceError>,
    saved: Option<Value>, historySaved: bool, id: string, date: string): (r: SubmitStep)
    requires ProfileShaped(s)
    ensures !CanSubmit(s) ==> r == SubmitStep(s, None, None, [])
    ensures CanSubmit(s) ==> r.state.content == content && !r.state.processing
    ensures s.screen != ResultScreen ==>
              (r.state.screen == ResultScreen <==> CanSubmit(s) && evaluated.Ok? && saved.Some? && historySaved)
    ensures !(CanSubmit(s) && evaluated.Ok? && saved.Some? && historySaved) ==>
              r.state.history == s.history && r.state.profile == s.profile && r.state.screen == s.screen
    ensures r.award.Some? <==> CanSubmit(s) && evaluated.Ok?
    ensures r.award.Some? ==>
              && r.award.value.points == Present(s.profile.value.points.value + PointsFor(s.mode))
              && r.state.evaluation == Some(evaluated.value)
    ensures r.posted.Some? <==> CanSubmit(s) && evaluated.Ok? && saved.Some?
    ensures r.posted.Some? ==>
              var rec := HistoryRecord(id, date, s.profile.value.level.value, s.topic, s.mode, content, evaluated.value);
              && r.posted.value == HistoryApi.HistoryPost(s.profile.value.username, Present(rec))
              && (historySaved ==> r.state.history == [rec] + s.history && r.state.profile == saved)
  {
    if !CanSubmit(s) then SubmitStep(s, None, None, [])
    else
      var p := s.profile.value;
      var s1 := s.(content := content, processing := false);
      match evaluated
      case Err(_) => SubmitStep(s1, None, None, [])
      case Ok(result) =>
        var s2 := s1.(evaluation := Some(result));
        var award := StorageService.AwardRequest(p, PointsFor(s.mode));
        if saved.None? then SubmitStep(s2, Some(award.request), None, [])
        else
          var rec := HistoryRecord(id, date, p.level.value, s.topic, s.mode, content, result);
          var post := HistoryApi.HistoryPost(p.username, Present(rec));
          if !historySaved then SubmitStep(s2, Some(award.request), Some(post), award.newBadges)
          else
            SubmitStep(s2.(history := [rec] + s.history, profile := saved, screen := ResultScreen),
                       Some(award.request), Some(post), award.newBadges)
  }

  /** An essay is worth 100 points and a sentence drill 20. */
  lemma SubmitAwardsByMode(s: State, content: string, result: EvaluationResult, saved: Option<Value>,
                           historySaved: bool, id: string, date: string)
    requires ProfileShaped(s) && CanSubmit(s)
    ensures var r := HandleSubmit(s, content, Ok(result), saved, historySaved, id, date);
            var before := s.profile.value.points.value;
            && (s.mode == Essay ==> r.award.value.points == Present(before + 100))
            && (s.mode == Sentence ==> r.award.value.points == Present(before + 20))
  {
  }

  /**
   * As written: a newly registered user has no stored profile, so the first
   * login keeps the served defaults, which name no user. The first render
   * after sign-in then throws in the header: at `username[0]`, or earlier at
   * `t.appTitle` if the language lookup fails. Even past that,
   * saving the AI settings would post no username: the handler refuses with
   * 400, the store is left as it was, and the client moves on regardless.
   */
  lemma FirstConfigSaveRejected(s: State, name: string, store: Store, hist: seq<HistoryRecord>,
                                resolves: Option<string> -> bool)
    requires name != "" && UserKey(name) in store && ProfileKey(name) !in store
    requires QueryString.QuerySafe(name)
    requires s.tempApiKey != ""
    ensures var loaded := StorageService.FetchProfile(StorageService.ServedProfile(name, store));
            var after := AuthSuccessAsWritten(s, loaded, Some(hist));
            && after.screen == ConfigScreen && !after.initializing
            && HeaderInitial(after, resolves).Err?
    ensures var loaded := StorageService.FetchProfile(StorageService.ServedProfile(name, store));
            var step := HandleSaveConfig(AuthSuccessAsWritten(s, loaded, Some(hist)), true);
            && step.sent.Some?
            && ConfigApi.SaveConfig(step.sent.value, store) == Step(Error(400, "Username and config are required"), store)
            && step.state.screen == Welcome
  {
    StorageService.FreshUserProfileHasNoName(name, store);
  }

  /**
   * With the name filled in, the same first save stores the settings on the
   * user and a new profile. The header then shows the name's initial exactly
   * when `translations[undefined]` resolves; otherwise it still throws, at
   * `t.appTitle`.
   */
  lemma FirstConfigSaveStored(s: State, name: string, store: Store, hist: seq<HistoryRecord>,
                              resolves: Option<string> -> bool)
    requires name != "" && UserKey(name) in store && ProfileKey(name) !in store
    requires QueryString.QuerySafe(name)
    requires WellTyped(store)
    requires s.tempApiKey != ""
    ensures var loaded := StorageService.FetchProfile(StorageService.ServedProfile(name, store));
            var after := AuthSuccess(s, name, loaded, Some(hist));
            && after.screen == ConfigScreen && !after.initializing
            && (resolves(None) ==> HeaderInitial(after, resolves) == Ok(Some(name[0])))
            && (!resolves(None) ==> HeaderInitial(after, resolves).Err?)
    ensures var loaded := StorageService.FetchProfile(StorageService.ServedProfile(name, store));
            var step := HandleSaveConfig(AuthSuccess(s, name, loaded, Some(hist)), true);
            var c := UserConfig(s.tempApiKey, s.tempProvider, s.tempModel);
            var r := ConfigApi.SaveConfig(step.sent.value, store);
            && step.sent.Some?
            && r.response == Json(ConfigSaved(c))
            && ConfigOf(r.store[UserKey(name)]) == Present(c)
            && r.store[ProfileKey(name)] == ConfigApi.NewProfile(name).(config := Present(c))
  {
    StorageService.FreshUserProfileHasNoName(name, store);
    var loaded := StorageService.FetchProfile(StorageService.ServedProfile(name, store));
    var step := HandleSaveConfig(AuthSuccess(s, name, loaded, Some(hist)), true);
    assert step.sent.value.username == Present(name);
    ConfigApi.SavedConfigAgrees(step.sent.value, store);
  }
  /**
   * The result page as App renders it: `ResultPhase` is given no `username`,
   * so the hidden share card it always renders receives `undefined`.
   */
  function ResultCardAsWritten(s: State): (r: Result<ShareCard.Card, string>)
    requires s.evaluation.Some?
    ensures r.Err?
  {
    ShareCard.Render(s.evaluation.value.score, s.evaluation.value, None)
  }

  /** The name the held profile carries, if it has one. */
  function ProfileName(s: State): (r: Option<string>)
    ensures r.Some? <==> s.profile.Some? && s.profile.value.Obj? && s.profile.value.username.Present?
    ensures r.Some? ==> r.value == s.profile.value.username.value
  {
    if s.profile.Some? && s.profile.value.Obj? && s.profile.value.username.Present?
    then Some(s.profile.value.username.value) else None
  }

  /**
   * The language key the page header looks up: "cn" when no profile is held,
   * otherwise the held profile's `language`, which no stored document
   * carries, so the lookup is `translations[undefined]` (`None`).
   */
  function HeaderLanguage(s: State): Option<string> {
    if s.profile.None? then Some("cn") else None
  }

  /**
   * The page header while it renders: `t.appTitle`, then the avatar letter
   * `userProfile.username[0]`. While initializing the spinner renders
   * instead. `resolves(lang)` says whether `translations[lang]` is a table;
   * when it is not, reading `t.appTitle` throws. Without a profile the header
   * shows no avatar. A held profile without a username makes the avatar
   * throw, so the whole page fails to render. An empty name yields
   * `undefined`, which shows nothing.
   */
  function HeaderInitial(s: State, resolves: Option<string> -> bool): (r: Result<Option<char>, string>)
    ensures r.Err? <==> !s.initializing
                        && (!resolves(HeaderLanguage(s)) || (s.profile.Some? && ProfileName(s).None?))
    ensures r == Ok(None) <==> s.initializing
                               || (resolves(HeaderLanguage(s)) && (s.profile.None? || ProfileName(s) == Some("")))
    ensures r.Ok? && r.value.Some? ==> r.value.value == ProfileName(s).value[0]
  {
    if s.initializing then Ok(None)
    else if !resolves(HeaderLanguage(s)) then Err("TypeError")
    else if s.profile.None? then Ok(None)
    else match ProfileName(s)
      case None => Err("TypeError")
      case Some(n) => if n == "" then Ok(None) else Ok(Some(n[0]))
  }

  /** The result page as evidently intended: the profile's name is handed down to the card. */
  function ResultCard(s: State): (r: Result<ShareCard.Card, string>)
    requires s.evaluation.Some?
    ensures r.Ok? <==> ProfileName(s).Some? && ProfileName(s).value != ""
    ensures r.Ok? ==> r.value.initial == ShareCard.Upper(ProfileName(s).value[0])
    ensures r.Ok? ==> r.value.corrections == |s.evaluation.value.detailedCorrections|
  {
    ShareCard.Render(s.evaluation.value.score, s.evaluation.value, ProfileName(s))
  }

  /**
   * A submission that reaches the result page with a saved profile naming
   * the user: as written the card cannot render, with the name passed down
   * it shows the name's initial.
   */
  lemma ResultCardAfterSubmit(s: State, content: string, result: EvaluationResult, saved: Value, id: string, date: string)
    requires ProfileShaped(s) && CanSubmit(s) && s.screen != ResultScreen
    requires saved.Obj? && Truthy(saved.username)
    ensures var r := HandleSubmit(s, content, Ok(result), Some(saved), true, id, date).state;
            && r.screen == ResultScreen && r.evaluation == Some(result)
            && ResultCardAsWritten(r).Err?
            && ResultCard(r).Ok? && ResultCard(r).value.initial == ShareCard.Upper(saved.username.value[0])
  {
  }
}
