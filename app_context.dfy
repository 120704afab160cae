/**
 * The shared application state provider: current user, theme flag,
 * language and loading flag, mirrored to the `thinkias_*` keys of the
 * browser store and to the `dark` class of the document element.
 */
module AppContext {
  import opened Wrappers
  import opened Storage
  import opened Text
  import opened Language

  const UserKey := "thinkias_user"
  const ThemeKey := "thinkias_theme"
  const LanguageKey := "thinkias_language"

  const EmailIdPrefix := "demo_user_"
  const GoogleIdPrefix := "google_user_"
  const GoogleName := "Google User"
  const GoogleEmail := "google.user@gmail.com"
  const GooglePhoto := "https://lh3.googleusercontent.com/a/default-user=s96-c"

  datatype User = User(id: string, displayName: string, email: string, photoURL: Option<string>)

  /**
   * How `JSON.parse` of a stored user ends: it throws, or it yields a value,
   * which is `null` (`Value(None)`) or a user object (`Value(Some(u))`).
   */
  datatype Parsed = Threw | Value(value: Option<User>)

  /** `JSON.stringify` and `JSON.parse` on users, left abstract. */
  datatype Codec = Codec(encode: User -> string, decode: string -> Parsed)

  /** What the context relies on of a JSON codec: a stringified object is non-empty and parses back. */
  ghost predicate Faithful(c: Codec) {
    forall u :: c.encode(u) != "" && c.decode(c.encode(u)) == Value(Some(u))
  }

  /** The demo user synthesised from an email address at time `now` (`Date.now()`). */
  function EmailUser(email: string, now: nat): User {
    User(EmailIdPrefix + Decimal(now), LocalPart(email), email, None)
  }

  /** The fixed demo user of the Google button, at time `now`. */
  function GoogleUser(now: nat): User {
    User(GoogleIdPrefix + Decimal(now), GoogleName, GoogleEmail, Some(GooglePhoto))
  }

  lemma EmailUserShape(email: string, now: nat)
    ensures EmailIdPrefix <= EmailUser(email, now).id
    ensures EmailUser(email, now).email == email
    ensures EmailUser(email, now).displayName == LocalPart(email)
    ensures '@' in email ==>
      '@' !in EmailUser(email, now).displayName && email[|EmailUser(email, now).displayName|] == '@'
    ensures '@' !in email ==> EmailUser(email, now).displayName == email
  {
    var d := LocalPart(email);
    if '@' !in email {
      assert |d| == |email|;
    } else {
      assert |d| < |email|;
    }
  }

  /** Timestamps taken at different times give users with different ids. */
  lemma EmailUserIdsDiffer(email: string, m: nat, n: nat)
    requires m != n
    ensures EmailUser(email, m).id != EmailUser(email, n).id
  {
    if EmailUser(email, m).id == EmailUser(email, n).id {
      assert Decimal(m) == EmailUser(email, m).id[|EmailIdPrefix|..];
      DecimalInjective(m, n);
    }
  }

  /** Scenario: signing in as "demo@x.com" shows "demo". */
  lemma DemoSignInName(now: nat)
    ensures EmailUser("demo@x.com", now).displayName == "demo"
  {
    LocalPartUnique("demo@x.com", "demo");
  }

  // ---------------------------------------------------------------------
  // The provider's state as a value, and each operation as a transition.
  // ---------------------------------------------------------------------

  datatype State = State(user: Option<User>, isDark: bool, language: Lang, loading: bool,
                         darkClass: bool, store: Store)

  /** The state of a freshly mounted provider, before hydration. */
  function Mount(store: Store, darkClass: bool): State {
    State(None, false, En, true, darkClass, store)
  }

  function Hydrate(s: State, decode: string -> Parsed): State {
    var s1 :=
      if !Truthy(s.store, UserKey) then s
      else match decode(s.store[UserKey])
        case Value(v) => s.(user := v)
        case Threw => s.(store := s.store - {UserKey});
    var s2 :=
      if GetItem(s1.store, ThemeKey) == Some("dark") then s1.(isDark := true, darkClass := true)
      else s1.(darkClass := false);
    var s3 :=
      match GetItem(s2.store, LanguageKey)
      case Some(v) => (match Parse(v) case Some(l) => s2.(language := l) case None => s2)
      case None => s2;
    s3.(loading := false)
  }

  function SignIn(s: State, u: User, encode: User -> string): State {
    s.(user := Some(u), store := s.store[UserKey := encode(u)])
  }

  function Logout(s: State): State {
    s.(user := None, store := s.store - {UserKey})
  }

  function ToggleTheme(s: State): State {
    var dark := !s.isDark;
    s.(isDark := dark, darkClass := dark, store := s.store[ThemeKey := ThemeValue(dark)])
  }

  function SetLanguage(s: State, l: Lang): State {
    s.(language := l, store := s.store[LanguageKey := Code(l)])
  }

  /** The user actions available once the provider is mounted. */
  datatype Action =
    | SignInWithEmail(email: string, password: string, now: nat)
    | SignUpWithEmail(email: string, password: string, now: nat)
    | SignInWithGoogle(now: nat)
    | SignOut
    | Toggle
    | ChangeLanguage(lang: Lang)

  function Apply(s: State, a: Action, c: Codec): State {
    match a
    case SignInWithEmail(email, _, now) => SignIn(s, EmailUser(email, now), c.encode)
    case SignUpWithEmail(email, _, now) => SignIn(s, EmailUser(email, now), c.encode)
    case SignInWithGoogle(now) => SignIn(s, GoogleUser(now), c.encode)
    case SignOut => Logout(s)
    case Toggle => ToggleTheme(s)
    case ChangeLanguage(l) => SetLanguage(s, l)
  }

  // ---------------------------------------------------------------------
  // What a reload restores from the store.
  // ---------------------------------------------------------------------

  /** The user a hydration would restore from `store`. */
  function StoredUser(store: Store, decode: string -> Parsed): Option<User> {
    if !Truthy(store, UserKey) then None
    else match decode(store[UserKey])
      case Value(v) => v
      case Threw => None
  }

  /** The language a hydration would restore from `store`. */
  function StoredLanguage(store: Store): Lang {
    match GetItem(store, LanguageKey)
    case Some(v) => Parse(v).GetOr(En)
    case None => En
  }

  /** The theme a hydration would restore from `store`. */
  predicate StoredDark(store: Store) {
    GetItem(store, ThemeKey) == Some("dark")
  }

  /** The in-memory session agrees with what the store would restore. */
  ghost predicate Mirrored(s: State, decode: string -> Parsed) {
    && s.user == StoredUser(s.store, decode)
    && s.isDark == StoredDark(s.store)
    && s.language == StoredLanguage(s.store)
  }

  /** Hydrating a freshly mounted provider, field by field. */
  lemma HydrateAfterMount(store: Store, darkClass: bool, decode: string -> Parsed)
    ensures var r := Hydrate(Mount(store, darkClass), decode);
      && !r.loading
      && r.isDark == r.darkClass == StoredDark(store)
      && r.language == (if GetItem(store, LanguageKey) == Some("hi") then Hi else En)
      && r.user == StoredUser(store, decode)
      && r.store == (if Truthy(store, UserKey) && decode(store[UserKey]).Threw?
                     then store - {UserKey} else store)
  {
  }

  /** A stored user that does not parse is dropped from memory and from the store. */
  lemma MalformedUserRepaired(store: Store, darkClass: bool, decode: string -> Parsed)
    requires Truthy(store, UserKey) && decode(store[UserKey]).Threw?
    ensures Hydrate(Mount(store, darkClass), decode).user == None
    ensures UserKey !in Hydrate(Mount(store, darkClass), decode).store
  {
  }

  /** A stored user that parses to `null` leaves no user signed in but stays in the store. */
  lemma NullUserKept(store: Store, darkClass: bool, decode: string -> Parsed)
    requires Truthy(store, UserKey) && decode(store[UserKey]) == Value(None)
    ensures Hydrate(Mount(store, darkClass), decode).user == None
    ensures Hydrate(Mount(store, darkClass), decode).store == store
  {
  }

  /** After mounting and hydrating, memory mirrors the store. */
  lemma HydrateMirrors(store: Store, darkClass: bool, decode: string -> Parsed)
    ensures Mirrored(Hydrate(Mount(store, darkClass), decode), decode)
  {
  }

  /** Every action keeps memory mirrored to the store, so a reload restores the same session. */
  lemma ApplyKeepsMirrored(s: State, a: Action, c: Codec)
    requires Faithful(c)
    requires Mirrored(s, c.decode)
    ensures Mirrored(Apply(s, a, c), c.decode)
  {
    match a
    case SignInWithEmail(email, _, now) =>
      assert c.encode(EmailUser(email, now)) != "" && c.decode(c.encode(EmailUser(email, now))) == Value(Some(EmailUser(email, now)));
    case SignUpWithEmail(email, _, now) =>
      assert c.encode(EmailUser(email, now)) != "" && c.decode(c.encode(EmailUser(email, now))) == Value(Some(EmailUser(email, now)));
    case SignInWithGoogle(now) =>
      assert c.encode(GoogleUser(now)) != "" && c.decode(c.encode(GoogleUser(now))) == Value(Some(GoogleUser(now)));
    case SignOut =>
    case Toggle =>
    case ChangeLanguage(l) =>
  }

  /** A reload after any mirrored state brings back the same user, theme and language. */
  lemma ReloadRestores(s: State, darkClass: bool, decode: string -> Parsed)
    requires Mirrored(s, decode)
    ensures var r := Hydrate(Mount(s.store, darkClass), decode);
      r.user == s.user && r.isDark == s.isDark && r.darkClass == s.isDark && r.language == s.language
  {
    HydrateAfterMount(s.store, darkClass, decode);
  }

  /** Email sign-in and sign-up are the same transition, and the password plays no part in it. */
  lemma EmailActionsAgree(s: State, email: string, p: string, q: string, now: nat, c: Codec)
    ensures Apply(s, SignInWithEmail(email, p, now), c) == Apply(s, SignUpWithEmail(email, q, now), c)
  {
  }

  /** Logging out twice is logging out once, and keeps theme, language and the other keys. */
  lemma LogoutIdempotent(s: State)
    ensures Logout(Logout(s)) == Logout(s)
    ensures Logout(s).isDark == s.isDark && Logout(s).language == s.language
    ensures forall k :: k != UserKey ==> GetItem(Logout(s).store, k) == GetItem(s.store, k)
  {
  }

  /**
   * One toggle leaves class and stored theme in agreement with the flag; two
   * restore the flag, and everything when class and store agreed with it before.
   */
  lemma ToggleThemeTwice(s: State)
    ensures ToggleTheme(ToggleTheme(s)).isDark == s.isDark
    ensures ToggleTheme(ToggleTheme(s)).darkClass == s.isDark
    ensures var t := ToggleTheme(s);
      t.darkClass == t.isDark && GetItem(t.store, ThemeKey) == Some(ThemeValue(t.isDark))
    ensures s.darkClass == s.isDark && GetItem(s.store, ThemeKey) == Some(ThemeValue(s.isDark))
            ==> ToggleTheme(ToggleTheme(s)) == s
  {
    var t := ToggleTheme(ToggleTheme(s));
    if s.darkClass == s.isDark && GetItem(s.store, ThemeKey) == Some(ThemeValue(s.isDark)) {
      assert t.store == s.store;
    }
  }

  /** The language setter changes the language and its key, and nothing else. */
  lemma SetLanguageSpec(s: State, l: Lang)
    ensures SetLanguage(s, l).language == l
    ensures GetItem(SetLanguage(s, l).store, LanguageKey) == Some(Code(l))
    ensures StoredLanguage(SetLanguage(s, l).store) == l
    ensures forall k :: k != LanguageKey ==> GetItem(SetLanguage(s, l).store, k) == GetItem(s.store, k)
  {
  }

  // ---------------------------------------------------------------------
  // The provider component.
  // ---------------------------------------------------------------------

  class AppProvider {
    var user: Option<User>
    var isDark: bool
    var language: Lang
    var loading: bool
    /** Whether the document element carries the `dark` class. */
    var darkClass: bool
    var store: Store
    const codec: Codec

    function Snapshot(): State
      reads this
    {
      State(user, isDark, language, loading, darkClass, store)
    }

    /** The provider as first rendered: no user, light, English, loading. */
    constructor (store0: Store, darkClass0: bool, codec: Codec)
      ensures user == None && !isDark && language == En && loading
      ensures darkClass == darkClass0 && store == store0 && this.codec == codec
      ensures Snapshot() == Mount(store0, darkClass0)
    {
      user := None;
      isDark := false;
      language := En;
      loading := true;
      darkClass := darkClass0;
      store := store0;
      this.codec := codec;
    }

    /** `initializeApp`: restore user, theme and language from the store, then stop loading. */
    method InitializeApp()
      modifies this
      ensures !loading
      ensures (Truthy(old(store), UserKey) && codec.decode(old(store)[UserKey]).Value?) ==>
        user == codec.decode(old(store)[UserKey]).value && store == old(store)
      ensures (Truthy(old(store), UserKey) && codec.decode(old(store)[UserKey]).Threw?) ==>
        user == old(user) && store == old(store) - {UserKey}
      ensures !Truthy(old(store), UserKey) ==> user == old(user) && store == old(store)
      ensures darkClass == StoredDark(old(store))
      ensures isDark == (StoredDark(old(store)) || old(isDark))
      ensures language == (match GetItem(old(store), LanguageKey)
                           case Some(v) => Parse(v).GetOr(old(language))
                           case None => old(language))
      ensures Snapshot() == Hydrate(old(Snapshot()), codec.decode)
    {
      if Truthy(store, UserKey) {
        var parsed := codec.decode(store[UserKey]);
        if parsed.Value? {
          user := parsed.value;
        } else {
          store := store - {UserKey};
        }
      }
      var savedTheme := GetItem(store, ThemeKey);
      if savedTheme == Some("dark") {
        isDark := true;
        darkClass := true;
      } else {
        darkClass := false;
      }
      var savedLanguage := GetItem(store, LanguageKey);
      if savedLanguage.Some? {
        var l := Parse(savedLanguage.value);
        if l.Some? {
          language := l.value;
        }
      }
      loading := false;
    }

    /** Set and persist a user; shared by the three sign-in handlers. */
    method PersistUser(u: User)
      modifies this
      ensures user == Some(u) && store == old(store)[UserKey := codec.encode(u)]
      ensures isDark == old(isDark) && language == old(language)
      ensures loading == old(loading) && darkClass == old(darkClass)
      ensures Snapshot() == SignIn(old(Snapshot()), u, codec.encode)
    {
      user := Some(u);
      store := store[UserKey := codec.encode(u)];
    }

    /** `signInWithEmail`: a demo user named after the email's local part; the password is unused. */
    method SignInWithEmail(email: string, password: string, now: nat)
      modifies this
      ensures user == Some(EmailUser(email, now))
      ensures store == old(store)[UserKey := codec.encode(EmailUser(email, now))]
      ensures isDark == old(isDark) && language == old(language)
      ensures loading == old(loading) && darkClass == old(darkClass)
      ensures Snapshot() == Apply(old(Snapshot()), Action.SignInWithEmail(email, password, now), codec)
    {
      PersistUser(EmailUser(email, now));
    }

    /** `signUpWithEmail`: exactly what `signInWithEmail` does. */
    method SignUpWithEmail(email: string, password: string, now: nat)
      modifies this
      ensures user == Some(EmailUser(email, now))
      ensures store == old(store)[UserKey := codec.encode(EmailUser(email, now))]
      ensures isDark == old(isDark) && language == old(language)
      ensures loading == old(loading) && darkClass == old(darkClass)
      ensures Snapshot() == Apply(old(Snapshot()), Action.SignUpWithEmail(email, password, now), codec)
    {
      PersistUser(EmailUser(email, now));
    }

    /** `signInWithGoogle`: the fixed Google demo user. */
    method SignInWithGoogle(now: nat)
      modifies this
      ensures user == Some(GoogleUser(now))
      ensures store == old(store)[UserKey := codec.encode(GoogleUser(now))]
      ensures isDark == old(isDark) && language == old(language)
      ensures loading == old(loading) && darkClass == old(darkClass)
      ensures Snapshot() == Apply(old(Snapshot()), Action.SignInWithGoogle(now), codec)
    {
      PersistUser(GoogleUser(now));
    }

    /** `logout`: forget the user in memory and in the store. */
    method Logout()
      modifies this
      ensures user == None && store == old(store) - {UserKey}
      ensures isDark == old(isDark) && language == old(language)
      ensures loading == old(loading) && darkClass == old(darkClass)
      ensures Snapshot() == Apply(old(Snapshot()), SignOut, codec)
    {
      user := None;
      store := store - {UserKey};
    }

    /** `toggleTheme`: flip the theme, set the document class to match, persist "dark" or "light". */
    method ToggleTheme()
      modifies this
      ensures isDark == !old(isDark) && darkClass == isDark
      ensures store == old(store)[ThemeKey := ThemeValue(isDark)]
      ensures user == old(user) && language == old(language) && loading == old(loading)
      ensures Snapshot() == Apply(old(Snapshot()), Toggle, codec)
    {
      var newTheme := !isDark;
      isDark := newTheme;
      if newTheme {
        darkClass := true;
        store := store[ThemeKey := "dark"];
      } else {
        darkClass := false;
        store := store[ThemeKey := "light"];
      }
    }

    /** `handleLanguageChange`: set the language and persist its code. */
    method HandleLanguageChange(lang: Lang)
      modifies this
      ensures language == lang && store == old(store)[LanguageKey := Code(lang)]
      ensures user == old(user) && isDark == old(isDark)
      ensures loading == old(loading) && darkClass == old(darkClass)
      ensures Snapshot() == Apply(old(Snapshot()), ChangeLanguage(lang), codec)
    {
      language := lang;
      store := store[LanguageKey := Code(lang)];
    }
  }
}
