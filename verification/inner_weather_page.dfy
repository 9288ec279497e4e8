/** The daily check-in page: validation first, then at most one check-in
    per user and day. The store is the mood collection of the document
    store; whether each store call answers is an input. */
module InnerWeatherPage {
  import opened Wrappers
  import InnerWeatherSchema
  import FS = FirebaseService

  /** The notice the page shows after a submission attempt. */
  datatype Toast = MustLogIn | AlreadyLogged | LoggedOk | SaveProblem

  function ToastText(t: Toast): string {
    match t
    case MustLogIn => "You must be logged in."
    case AlreadyLogged => "You've already logged your mood today. You can only log once per day."
    case LoggedOk => "Your mood has been logged successfully."
    case SaveProblem => "There was a problem saving your mood entry. Please try again."
  }

  /** The page's own state: the submit spinner, the thank-you screen, and
      the last notice. */
  datatype Page = Page(isSubmitting: bool, submissionSuccess: bool, toast: Option<Toast>)

  const InitialPage: Page := Page(false, false, None)

  /** What the page's store calls meet: whether the store exists, today's
      query window and calendar day on the app server, the store's write
      time, and whether the query and the save each answer. */
  datatype Env = Env(db: bool, window: FS.DayWindow, today: FS.Day, serverNow: int, queryUp: bool, saveUp: bool)

  predicate ValidEnv(env: Env) {
    FS.ValidDay(env.today)
  }

  /** The check-in that would be written for this user and data. */
  function Written(store: FS.MoodStore, uid: string, data: InnerWeatherSchema.InnerWeatherForm, env: Env): FS.MoodStore
    requires ValidEnv(env)
  {
    store[FS.MoodDocId(uid, env.today) := FS.MoodRecord(data, uid, env.serverNow)]
  }

  /** `onSubmit`, run with validated data: no user, a check-in already made
      today, or a failing store all leave the store as it was; otherwise the
      check-in is written and only then is success shown. */
  function OnSubmit(page: Page, user: Option<string>, data: InnerWeatherSchema.InnerWeatherForm,
                    store: FS.MoodStore, env: Env): (r: (Page, FS.MoodStore))
    requires ValidEnv(env)
    ensures user.Some? ==> !r.0.isSubmitting
    ensures user.None? ==> r == (page.(toast := Some(MustLogIn)), store)
    ensures r.1 != store ==> r.1 == Written(store, user.value, data, env)
    // The check-in is written exactly when somebody is signed in, the store
    // answers both calls, and the user has nothing in today's window yet.
    ensures r.0.toast == Some(LoggedOk) <==>
      user.Some? && env.db && env.queryUp && env.saveUp && !FS.HasEntryInWindow(store, user.value, env.window)
    ensures r.0.toast == Some(LoggedOk) ==> r.1 == Written(store, user.value, data, env) && r.0.submissionSuccess
    ensures r.0.toast != Some(LoggedOk) ==> r.1 == store && r.0.submissionSuccess == page.submissionSuccess
    ensures user.Some? && env.db && env.queryUp && FS.HasEntryInWindow(store, user.value, env.window) ==>
      r.0.toast == Some(AlreadyLogged)
  {
    if user.None? then (page.(toast := Some(MustLogIn)), store)
    else
      var uid := user.value;
      match FS.TodayQuery(env.db, store, uid, env.window, env.queryUp)
      case Err(_) => (page.(isSubmitting := false, toast := Some(SaveProblem)), store)
      case Ok(alreadyLogged) =>
        if alreadyLogged then (page.(isSubmitting := false, toast := Some(AlreadyLogged)), store)
        else
          match FS.SaveMoodEntry(env.db, store, uid, data, env.today, env.serverNow, env.saveUp)
          case Err(_) => (page.(isSubmitting := false, toast := Some(SaveProblem)), store)
          case Ok(saved) => (page.(isSubmitting := false, submissionSuccess := true, toast := Some(LoggedOk)), saved)
  }

  /** The form's submit: invalid data never reaches `onSubmit` (the schema's
      messages are shown instead); valid data does. */
  function Submit(page: Page, user: Option<string>, data: InnerWeatherSchema.InnerWeatherForm,
                  store: FS.MoodStore, env: Env): (r: (Page, FS.MoodStore))
    requires ValidEnv(env)
    ensures !InnerWeatherSchema.InnerWeatherAccepts(data) ==> r == (page, store)
    ensures r.1 != store ==> InnerWeatherSchema.InnerWeatherAccepts(data) && user.Some?
  {
    if InnerWeatherSchema.InnerWeatherAccepts(data) then OnSubmit(page, user, data, store, env) else (page, store)
  }

  /** Once per day: after a check-in is written at a time inside today's
      window, any further submission with the same window writes nothing
      and reports that the day is already logged. */
  lemma OncePerDay(page: Page, uid: string, first: InnerWeatherSchema.InnerWeatherForm,
                   second: InnerWeatherSchema.InnerWeatherForm, store: FS.MoodStore, env: Env, env2: Env)
    requires ValidEnv(env) && ValidEnv(env2)
    requires FS.InWindow(env.window, env.serverNow)
    requires env2.window == env.window && env2.db && env2.queryUp
    requires OnSubmit(page, Some(uid), first, store, env).0.toast == Some(LoggedOk)
    ensures var (p1, s1) := OnSubmit(page, Some(uid), first, store, env);
      var (p2, s2) := OnSubmit(p1, Some(uid), second, s1, env2);
      s2 == s1 && p2.toast == Some(AlreadyLogged) && p2.submissionSuccess
  {
    var s1 := OnSubmit(page, Some(uid), first, store, env).1;
    var id := FS.MoodDocId(uid, env.today);
    assert id in s1 && FS.LoggedIn(s1[id], uid, env.window);
  }
}
