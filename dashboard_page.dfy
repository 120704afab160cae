/**
 * The dashboard page's own copy of the session logic: it hydrates from the
 * `jha_*` keys, redirects home when no user is stored, and toggles theme
 * and language locally.
 */
module DashboardPage {
  import opened Wrappers
  import opened Storage
  import opened JhaSession

  /** The user record as the dashboard reads it; either field may be missing from the parsed JSON. */
  datatype DashUser = DashUser(displayName: Option<string>, email: Option<string>)

  const PlaceholderUser := DashUser(Some("UPSC Aspirant"), Some("demo@jhawebsite.com"))

  /** `user.displayName?.[0] || 'U'`: the first character of a non-empty name, else "U". */
  function AvatarInitial(displayName: Option<string>): (r: string)
    ensures |r| == 1
    ensures displayName.Some? && displayName.value != "" ==> r[0] == displayName.value[0]
    ensures displayName.None? || displayName.value == "" ==> r == "U"
  {
    match displayName
    case Some(name) => if name != "" then [name[0]] else "U"
    case None => "U"
  }

  /** How `checkAuth` ends: redirected to "/", hydrated, or thrown by `JSON.parse`. */
  datatype CheckAuthOutcome = RedirectedHome | Hydrated | ParseThrew

  datatype State = State(isDark: bool, language: string, user: DashUser, darkClass: bool,
                         store: Store, redirects: seq<string>)

  function Mount(store: Store, darkClass: bool): State {
    State(false, "en", PlaceholderUser, darkClass, store, [])
  }

  function CheckAuthOutcomeOf(store: Store, decode: string -> Option<DashUser>): CheckAuthOutcome {
    if !Truthy(store, UserKey) then RedirectedHome
    else if decode(store[UserKey]).Some? then Hydrated
    else ParseThrew
  }

  function CheckAuthStep(s: State, decode: string -> Option<DashUser>): State {
    if !Truthy(s.store, UserKey) then s.(redirects := s.redirects + ["/"])
    else
      var s1 := if GetItem(s.store, ThemeKey) == Some("dark") then s.(isDark := true, darkClass := true) else s;
      var s2 := if Truthy(s.store, LanguageKey) then s1.(language := s.store[LanguageKey]) else s1;
      match decode(s.store[UserKey])
      case Some(u) => s2.(user := u)
      case None => s2
  }

  function ToggleThemeStep(s: State): State {
    var dark := !s.isDark;
    s.(isDark := dark, darkClass := dark, store := s.store[ThemeKey := ThemeValue(dark)])
  }

  function ToggleLanguageStep(s: State): State {
    var l := NextLanguage(s.language);
    s.(language := l, store := s.store[LanguageKey := l])
  }

  function LogoutStep(s: State): State {
    s.(store := s.store - {UserKey}, redirects := s.redirects + ["/"])
  }

  /** Without a stored user, `checkAuth` only records the redirect to "/". */
  lemma CheckAuthWithoutUser(s: State, decode: string -> Option<DashUser>)
    requires !Truthy(s.store, UserKey)
    ensures CheckAuthStep(s, decode) == s.(redirects := s.redirects + ["/"])
    ensures CheckAuthOutcomeOf(s.store, decode) == RedirectedHome
  {
  }

  /** Hydration can turn dark mode on but never off, and never removes the class. */
  lemma CheckAuthOnlyDarkens(s: State, decode: string -> Option<DashUser>)
    ensures var r := CheckAuthStep(s, decode);
      && (s.isDark ==> r.isDark) && (s.darkClass ==> r.darkClass)
      && (Truthy(s.store, UserKey) && GetItem(s.store, ThemeKey) == Some("dark") ==> r.isDark && r.darkClass)
      && (GetItem(s.store, ThemeKey) != Some("dark") ==> r.isDark == s.isDark && r.darkClass == s.darkClass)
  {
  }

  /** Any non-empty stored language is adopted, whatever it is. */
  lemma CheckAuthAdoptsAnyLanguage(s: State, decode: string -> Option<DashUser>)
    requires Truthy(s.store, UserKey) && Truthy(s.store, LanguageKey)
    ensures CheckAuthStep(s, decode).language == s.store[LanguageKey]
  {
  }

  /**
   * One toggle leaves class and stored theme in agreement with the flag; two
   * restore the flag, and everything when class and store agreed with it before.
   */
  lemma ToggleThemeTwice(s: State)
    ensures ToggleThemeStep(ToggleThemeStep(s)).isDark == s.isDark
    ensures var t := ToggleThemeStep(s);
      t.darkClass == t.isDark && GetItem(t.store, ThemeKey) == Some(ThemeValue(t.isDark))
    ensures s.darkClass == s.isDark && GetItem(s.store, ThemeKey) == Some(ThemeValue(s.isDark))
            ==> ToggleThemeStep(ToggleThemeStep(s)) == s
  {
    if s.darkClass == s.isDark && GetItem(s.store, ThemeKey) == Some(ThemeValue(s.isDark)) {
      assert ToggleThemeStep(ToggleThemeStep(s)).store == s.store;
    }
  }

  /** Starting from "en", two language toggles come back to "en" and persist it. */
  lemma ToggleLanguageTwiceFromEn(s: State)
    requires s.language == "en"
    ensures ToggleLanguageStep(ToggleLanguageStep(s)).language == "en"
    ensures GetItem(ToggleLanguageStep(ToggleLanguageStep(s)).store, LanguageKey) == Some("en")
  {
  }

  /** Logging out drops only the user key: theme and language survive, and the page state is kept. */
  lemma LogoutKeepsPreferences(s: State)
    ensures UserKey !in LogoutStep(s).store
    ensures forall k :: k != UserKey ==> GetItem(LogoutStep(s).store, k) == GetItem(s.store, k)
    ensures LogoutStep(s).isDark == s.isDark && LogoutStep(s).language == s.language && LogoutStep(s).user == s.user
  {
  }

  class Dashboard {
    var isDark: bool
    var language: string
    var user: DashUser
    /** Whether the document element carries the `dark` class. */
    var darkClass: bool
    var store: Store
    /** The targets passed to `router.push`, in order. */
    var redirects: seq<string>
    const decode: string -> Option<DashUser>

    function Snapshot(): State
      reads this
    {
      State(isDark, language, user, darkClass, store, redirects)
    }

    constructor (store0: Store, darkClass0: bool, decode: string -> Option<DashUser>)
      ensures !isDark && language == "en" && user == PlaceholderUser
      ensures darkClass == darkClass0 && store == store0 && redirects == [] && this.decode == decode
      ensures Snapshot() == Mount(store0, darkClass0)
    {
      isDark := false;
      language := "en";
      user := PlaceholderUser;
      darkClass := darkClass0;
      store := store0;
      redirects := [];
      this.decode := decode;
    }

    /** `checkAuth`: leave for "/" without a user; otherwise adopt theme, language and the parsed user. */
    method CheckAuth() returns (outcome: CheckAuthOutcome)
      modifies this
      ensures outcome == CheckAuthOutcomeOf(old(store), decode)
      ensures store == old(store)
      ensures outcome == RedirectedHome ==>
        redirects == old(redirects) + ["/"] && isDark == old(isDark) && darkClass == old(darkClass)
        && language == old(language) && user == old(user)
      ensures outcome != RedirectedHome ==> redirects == old(redirects)
      ensures outcome == Hydrated ==> Some(user) == decode(old(store)[UserKey])
      ensures outcome == ParseThrew ==> user == old(user)
      ensures Snapshot() == CheckAuthStep(old(Snapshot()), decode)
    {
      if !Truthy(store, UserKey) {
        redirects := redirects + ["/"];
        return RedirectedHome;
      }
      var userData := store[UserKey];
      var savedTheme := GetItem(store, ThemeKey);
      var savedLanguage := GetItem(store, LanguageKey);
      if savedTheme == Some("dark") {
        isDark := true;
        darkClass := true;
      }
      if savedLanguage.Some? && savedLanguage.value != "" {
        language := savedLanguage.value;
      }
      var parsed := decode(userData);
      if parsed.Some? {
        user := parsed.value;
        outcome := Hydrated;
      } else {
        outcome := ParseThrew;
      }
    }

    /** `toggleTheme`: flip the theme, set the class to match, persist "dark" or "light". */
    method ToggleTheme()
      modifies this
      ensures isDark == !old(isDark) && darkClass == isDark
      ensures store == old(store)[ThemeKey := ThemeValue(isDark)]
      ensures language == old(language) && user == old(user) && redirects == old(redirects)
      ensures Snapshot() == ToggleThemeStep(old(Snapshot()))
    {
      var newTheme := !isDark;
      isDark := newTheme;
      if newTheme {
        darkClass := true;
        store := store[ThemeKey := "dark"];
      } else {
        darkClass := false;
        store := store[ThemeKey := "light"];
      }
    }

    /** `toggleLanguage`: "en" becomes "hi", anything else "en", and the result is persisted. */
    method ToggleLanguage()
      modifies this
      ensures language == NextLanguage(old(language))
      ensures store == old(store)[LanguageKey := language]
      ensures isDark == old(isDark) && darkClass == old(darkClass)
      ensures user == old(user) && redirects == old(redirects)
      ensures Snapshot() == ToggleLanguageStep(old(Snapshot()))
    {
      var newLang := if language == "en" then "hi" else "en";
      language := newLang;
      store := store[LanguageKey := newLang];
    }

    /** `handleLogout`: remove the stored user and go to "/"; the in-memory user is left as it was. */
    method HandleLogout()
      modifies this
      ensures store == old(store) - {UserKey}
      ensures redirects == old(redirects) + ["/"]
      ensures isDark == old(isDark) && darkClass == old(darkClass)
      ensures language == old(language) && user == old(user)
      ensures Snapshot() == LogoutStep(old(Snapshot()))
    {
      store := store - {UserKey};
      redirects := redirects + ["/"];
    }

    /** The letter shown in the avatar circle. */
    function Initial(): (r: string)
      reads this
      ensures |r| == 1
      ensures r == AvatarInitial(user.displayName)
    {
      AvatarInitial(user.displayName)
    }
  }
}
