/**
 * The landing page's copy of the session logic: a logged-in flag read from
 * `jha_user`, a demo login, a language toggle, and the choice between a
 * spinner, a redirect to the dashboard and the landing content.
 */
module HomePage {
  import opened Wrappers
  import opened Storage
  import opened JhaSession
  import DashboardPage

  /** `JSON.stringify({ id: 'demo_user', name: 'UPSC Aspirant', email: 'demo@jhawebsite.com' })`. */
  const DemoUserRecord := "{\"id\":\"demo_user\",\"name\":\"UPSC Aspirant\",\"email\":\"demo@jhawebsite.com\"}"

  /** What the page renders. */
  datatype View = Spinner | RedirectToDashboard | Landing

  datatype State = State(loading: bool, isLoggedIn: bool, language: string, store: Store,
                         redirects: seq<string>)

  function Mount(store: Store): State {
    State(true, false, "en", store, [])
  }

  /** The render decision: spinner while loading, then the dashboard for a logged-in visitor. */
  function ViewOf(loading: bool, isLoggedIn: bool): (v: View)
    ensures v == Spinner <==> loading
    ensures v == RedirectToDashboard <==> !loading && isLoggedIn
    ensures v == Landing <==> !loading && !isLoggedIn
  {
    if loading then Spinner else if isLoggedIn then RedirectToDashboard else Landing
  }

  function CheckAuthStep(s: State): State {
    var language := if Truthy(s.store, LanguageKey) then s.store[LanguageKey] else "en";
    s.(isLoggedIn := Truthy(s.store, UserKey), language := language, loading := false)
  }

  function LoginStep(s: State): State {
    s.(store := s.store[UserKey := DemoUserRecord], isLoggedIn := true,
       redirects := s.redirects + ["/dashboard"])
  }

  function ToggleLanguageStep(s: State): State {
    var l := NextLanguage(s.language);
    s.(language := l, store := s.store[LanguageKey := l])
  }

  /**
   * `checkAuth` settles the page: the result depends on the store alone, not on the
   * flags it replaces, a second check changes nothing, and the spinner is gone, with
   * the dashboard chosen exactly when a non-empty user is stored.
   */
  lemma CheckAuthSettles(s: State, loading: bool, isLoggedIn: bool, language: string)
    ensures CheckAuthStep(s.(loading := loading, isLoggedIn := isLoggedIn, language := language)) == CheckAuthStep(s)
    ensures CheckAuthStep(CheckAuthStep(s)) == CheckAuthStep(s)
    ensures ViewOf(CheckAuthStep(s).loading, CheckAuthStep(s).isLoggedIn) != Spinner
    ensures ViewOf(CheckAuthStep(s).loading, CheckAuthStep(s).isLoggedIn) == RedirectToDashboard
            <==> UserKey in s.store && s.store[UserKey] != ""
  {
  }

  /** The demo login survives a reload: the next visit goes straight to the dashboard. */
  lemma LoginSurvivesReload(s: State)
    ensures var r := CheckAuthStep(Mount(LoginStep(s).store));
      r.isLoggedIn && ViewOf(r.loading, r.isLoggedIn) == RedirectToDashboard
  {
  }

  /** After the landing page's login the dashboard does not send the visitor back to "/". */
  lemma LoginOpensDashboard(s: State, darkClass: bool, decode: string -> Option<DashboardPage.DashUser>)
    ensures DashboardPage.CheckAuthOutcomeOf(LoginStep(s).store, decode) != DashboardPage.RedirectedHome
    ensures DashboardPage.CheckAuthStep(DashboardPage.Mount(LoginStep(s).store, darkClass), decode).redirects == []
  {
  }

  /**
   * The demo record has a `name` but no `displayName`, so once the dashboard
   * has read it (parsed without a display name), the avatar shows "U".
   */
  lemma LandingLoginShowsU(s: State, darkClass: bool, decode: string -> Option<DashboardPage.DashUser>)
    requires decode(DemoUserRecord).Some? && decode(DemoUserRecord).value.displayName.None?
    ensures var d := DashboardPage.CheckAuthStep(DashboardPage.Mount(LoginStep(s).store, darkClass), decode);
      DashboardPage.AvatarInitial(d.user.displayName) == "U"
  {
  }

  class Home {
    var loading: bool
    var isLoggedIn: bool
    var language: string
    var store: Store
    /** The targets passed to `router.push` by the handlers, in order. */
    var redirects: seq<string>

    function Snapshot(): State
      reads this
    {
      State(loading, isLoggedIn, language, store, redirects)
    }

    constructor (store0: Store)
      ensures loading && !isLoggedIn && language == "en" && store == store0 && redirects == []
      ensures Snapshot() == Mount(store0)
    {
      loading := true;
      isLoggedIn := false;
      language := "en";
      store := store0;
      redirects := [];
    }

    /** `checkAuth` (run 800 ms after mounting): read the login flag and language, stop loading. */
    method CheckAuth()
      modifies this
      ensures !loading
      ensures isLoggedIn == Truthy(old(store), UserKey)
      ensures language == (if Truthy(old(store), LanguageKey) then old(store)[LanguageKey] else "en")
      ensures store == old(store) && redirects == old(redirects)
      ensures Snapshot() == CheckAuthStep(old(Snapshot()))
    {
      var user := GetItem(store, UserKey);
      var savedLanguage := if Truthy(store, LanguageKey) then store[LanguageKey] else "en";
      isLoggedIn := user.Some? && user.value != "";
      language := savedLanguage;
      loading := false;
    }

    /** `handleLogin`: store the fixed demo user, mark logged in, go to the dashboard. */
    method HandleLogin()
      modifies this
      ensures store == old(store)[UserKey := DemoUserRecord]
      ensures isLoggedIn && redirects == old(redirects) + ["/dashboard"]
      ensures loading == old(loading) && language == old(language)
      ensures Snapshot() == LoginStep(old(Snapshot()))
    {
      store := store[UserKey := DemoUserRecord];
      isLoggedIn := true;
      redirects := redirects + ["/dashboard"];
    }

    /** `toggleLanguage`: "en" becomes "hi", anything else "en", and the result is persisted. */
    method ToggleLanguage()
      modifies this
      ensures language == NextLanguage(old(language))
      ensures store == old(store)[LanguageKey := language]
      ensures loading == old(loading) && isLoggedIn == old(isLoggedIn) && redirects == old(redirects)
      ensures Snapshot() == ToggleLanguageStep(old(Snapshot()))
    {
      var newLang := if language == "en" then "hi" else "en";
      language := newLang;
      store := store[LanguageKey := newLang];
    }

    function View(): (v: View)
      reads this
      ensures v == RedirectToDashboard <==> !loading && isLoggedIn
    {
      ViewOf(loading, isLoggedIn)
    }
  }
}
