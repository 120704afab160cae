# UPSC notebook: session state, note filtering and the note editor

This project models the client-side logic of a Next.js study notebook for UPSC aspirants.
The model covers six parts.

- **The application context** (`AppContext`). It holds the current user, the dark-theme flag, the
  interface language ("en" or "hi") and a loading flag. It hydrates them from the `thinkias_*` keys
  of the browser's local store. It offers demo sign-in (email or Google), logout, a theme toggle
  and a language setter, and each one writes back to the store. Hydration and the theme toggle also
  set the `dark` class of the document element.
- **The dashboard page** (`DashboardPage`) keeps its own copy of the session under the `jha_*` keys.
  With no stored user it redirects to "/". Otherwise it switches to dark when "dark" is stored,
  adopts any non-empty stored language and takes the parsed user. It toggles theme and language locally and logs out by removing the stored
  user. The avatar shows the first letter of the display name, or "U".
- **The landing page** (`HomePage`) reads a logged-in flag and a language from the same keys. Its
  demo login stores a fixed user record and opens the dashboard. While loading it shows a spinner;
  a logged-in visitor is sent to the dashboard.
- **Note filtering** (`NoteFilter`, shared by `NotesManager` and `NotesPage`). A note is kept when
  the lower-cased search text occurs in its lower-cased title, subject or topic, and the selected
  subject is "all" or equals its subject. The counters are the total, the AI-generated count, the
  number of distinct subjects and the filtered count.
- **The fixtures**: the notes page's three constant notes, and the notes manager's four notes,
  whose titles follow the language.
- **The note editor** (`NotesEditor`): a five-field form, single-field updates, a content generator
  guarded by subject and topic that defaults the title, and a save check on title, content and
  subject.

Each React component whose state changes is a `class`. Its fields are the component's state, plus,
where the component touches them, the store map, the document's `dark` class and the list of
redirects it issued. The context,
dashboard and landing-page classes also have a `Snapshot()` of their fields. Each of their methods
is specified both field by field and as a pure transition on the snapshot (`Hydrate`, `Apply`,
`CheckAuthStep`, …). The notes manager and the editor state their methods' effects on the fields
through the functions beside them (`MockNotes`, `WithField`, `AfterGeneration`, `RequiredFilled`). Lemmas about those transitions state the
properties that span several calls: a reload restores the session, logout is idempotent, toggling
twice restores the theme. Pure computations (filter, counters, avatar, form record) are functions,
with lemmas beside them.

Shared helpers:

- `Wrappers`: an `Option` type.
- `Storage`: the store as a `map<string, string>` and JavaScript truthiness of `getItem`.
- `Text`: ASCII lower-casing, `includes`, `split("@")[0]` and the decimal form of `Date.now()`.
- `Language`: the two language codes.
- `JhaSession`: the `jha_*` keys and the "en"/"hi" toggle shared by the two pages.

Where the code differs from what its types and names suggest, the model follows the code:

- The context only looks at a stored user when `getItem` returns a truthy string. So an empty stored
  user string is neither parsed nor cleared, although "malformed" would otherwise include it.
  `InitializeApp` and `HydrateAfterMount` state this case.
- The dashboard calls `JSON.parse` without a `try`. A stored user that does not parse therefore
  throws out of `checkAuth` after the theme and language were already set. The model ends the step
  there, with the `ParseThrew` outcome. In the browser the exception leaves the effect and the page
  is torn down, so of that work only the `dark` class on the document element survives.
- In the context, a stored user that parses to `null` is accepted: no user is signed in, yet the
  key stays in the store. `NullUserKept` states this case.
- The landing page stores its demo user with a `name` field, but the dashboard reads `displayName`.
  After that login the avatar therefore shows "U", as `LandingLoginShowsU` states.

## Model

| member | source | states |
|---|---|---|
| AppContext.AppProvider.constructor | app/contexts/AppContext.tsx:40-44 | before hydration there is no user, the theme is light, the language is "en" and loading is on |
| AppContext.AppProvider.InitializeApp | app/contexts/AppContext.tsx:46-74 | afterwards loading is off. A truthy stored user whose parse yields a value (a user or `null`) makes that value the user and keeps the store; one whose parse throws is removed from the store and leaves the user; no truthy user leaves user and store alone. The class follows a stored "dark" exactly; dark mode is switched on by it and otherwise kept, so it follows exactly from a fresh mount. The language is adopted only if it is "en" or "hi". The new state is `Hydrate` of the old one |
| AppContext.HydrateAfterMount | app/contexts/AppContext.tsx:46-74 | from a fresh mount, hydration gives each field as a function of the store alone |
| AppContext.MalformedUserRepaired | app/contexts/AppContext.tsx:48-55 | a truthy stored user whose parse throws leaves no user in memory and no user key in the store |
| AppContext.NullUserKept | app/contexts/AppContext.tsx:48-52 | a truthy stored user that parses to `null` leaves no user in memory, and the store unchanged |
| AppContext.HydrateMirrors | app/contexts/AppContext.tsx:46-74 | after hydration, user, theme and language agree with what the store would restore |
| AppContext.ApplyKeepsMirrored | app/contexts/AppContext.tsx:76-131 | with a JSON codec that round-trips users, every action keeps memory and store in agreement |
| AppContext.ReloadRestores | app/contexts/AppContext.tsx:46-131 | when memory mirrors the store, a reload brings back the same user, theme, class and language |
| AppContext.EmailUserShape | app/contexts/AppContext.tsx:77-81 | the synthetic user's id starts with "demo_user_" and its email is the input. Its display name is the text before the first "@", or the whole input when there is none |
| AppContext.EmailUserIdsDiffer | app/contexts/AppContext.tsx:78 | sign-ins at different times give different ids |
| AppContext.DemoSignInName | app/contexts/AppContext.tsx:79 | signing in as "demo@x.com" shows the name "demo" |
| AppContext.EmailActionsAgree | app/contexts/AppContext.tsx:76-96 | email sign-in and sign-up are the same transition, whatever the passwords |
| AppContext.AppProvider.PersistUser | app/contexts/AppContext.tsx:83-84 | the user is set and its encoding is written under `thinkias_user`; nothing else changes |
| AppContext.AppProvider.SignInWithEmail | app/contexts/AppContext.tsx:76-85 | the user becomes the email user and is persisted under the user key; theme, language, loading and class are unchanged |
| AppContext.AppProvider.SignUpWithEmail | app/contexts/AppContext.tsx:87-96 | the same new state as email sign-in |
| AppContext.AppProvider.SignInWithGoogle | app/contexts/AppContext.tsx:98-108 | the user becomes the fixed Google demo user with a "google_user_" id and is persisted; nothing else changes |
| AppContext.AppProvider.Logout | app/contexts/AppContext.tsx:110-113 | no user, the user key removed; theme, language, loading and class unchanged |
| AppContext.LogoutIdempotent | app/contexts/AppContext.tsx:110-113 | logging out twice equals logging out once; theme, language and every other key are kept |
| AppContext.AppProvider.ToggleTheme | app/contexts/AppContext.tsx:115-126 | the flag is negated, the class equals the new flag, and "dark" or "light" is stored to match |
| AppContext.ToggleThemeTwice | app/contexts/AppContext.tsx:115-126 | after one toggle, the class and the stored theme agree with the flag. Two toggles restore the flag and set the class to it, and restore the whole state when class and store agreed with the flag before |
| AppContext.AppProvider.HandleLanguageChange | app/contexts/AppContext.tsx:128-131 | the language and the `thinkias_language` key both take the argument; nothing else changes |
| AppContext.SetLanguageSpec | app/contexts/AppContext.tsx:128-131 | the language is set and stored; other keys are unchanged, and a reload reads the same language back |
| Storage.ThemeValue | app/contexts/AppContext.tsx:119-125 | the stored theme is "dark" exactly when dark mode is on, otherwise "light" |
| Language.Parse | app/contexts/AppContext.tsx:65-68 | a stored language is accepted exactly when it is "en" or "hi", and then as the same code |
| Language.ParseCode | app/contexts/AppContext.tsx:128-131 | a language written by the setter reads back as itself |
| Text.LocalPart | app/contexts/AppContext.tsx:79 | `split("@")[0]`: a prefix of the email without "@", followed by "@" unless it is the whole email |
| Text.LocalPartUnique | app/contexts/AppContext.tsx:79 | that prefix is the only one with this property |
| Text.Decimal | app/contexts/AppContext.tsx:78 | the decimal form of the timestamp is a non-empty string of digits |
| Text.DecimalRoundTrip | app/contexts/AppContext.tsx:78 | reading the digits back gives the timestamp |
| Text.DecimalInjective | app/contexts/AppContext.tsx:78 | different timestamps have different decimal forms |
| JhaSession.NextLanguage | app/dashboard/page.tsx:54-55 | the toggle yields "en" or "hi", and "hi" exactly when the language was "en" |
| JhaSession.NextLanguageTwice | app/page.tsx:37-41 | toggling twice restores "en" or "hi". Any other language becomes "hi" after two toggles |
| DashboardPage.Dashboard.constructor | app/dashboard/page.tsx:9-12 | light theme, "en", the placeholder user, no redirects |
| DashboardPage.Dashboard.CheckAuth | app/dashboard/page.tsx:15-39 | without a truthy `jha_user`, only a redirect to "/" is recorded. Otherwise no redirect is recorded; flag and class switch to dark when "dark" is stored (nothing clears them), and any non-empty stored language is adopted. A parsed user replaces the placeholder; a parse that throws ends the step with the `ParseThrew` outcome before the user is set. The store is never written |
| DashboardPage.CheckAuthWithoutUser | app/dashboard/page.tsx:17-21 | with no stored user the step only appends the redirect to "/" |
| DashboardPage.CheckAuthOnlyDarkens | app/dashboard/page.tsx:23-29 | hydration can set dark mode and the class but never clears them; a theme other than "dark" leaves both as they were |
| DashboardPage.CheckAuthAdoptsAnyLanguage | app/dashboard/page.tsx:24-33 | any non-empty stored language is adopted as is |
| DashboardPage.Dashboard.ToggleTheme | app/dashboard/page.tsx:41-52 | the flag is negated, the class follows it and the matching value is stored under `jha_theme` |
| DashboardPage.ToggleThemeTwice | app/dashboard/page.tsx:41-52 | after one toggle, the class and the stored `jha_theme` agree with the flag. Two toggles restore the flag, and the whole state when class and store agreed with it before |
| DashboardPage.Dashboard.ToggleLanguage | app/dashboard/page.tsx:54-58 | the language is toggled and written under `jha_language`; nothing else changes |
| DashboardPage.ToggleLanguageTwiceFromEn | app/dashboard/page.tsx:54-58 | from "en", two toggles return to "en" in memory and in the store |
| DashboardPage.Dashboard.HandleLogout | app/dashboard/page.tsx:60-63 | only the user key is removed and a redirect to "/" is recorded; theme, language and the in-memory user stay |
| DashboardPage.LogoutKeepsPreferences | app/dashboard/page.tsx:60-63 | after logout no user is stored; every other key and the theme, language and user in memory are kept |
| DashboardPage.AvatarInitial | app/dashboard/page.tsx:235 | one character: the first letter of a non-empty display name, otherwise "U" |
| HomePage.Home.constructor | app/page.tsx:9-12 | loading, not logged in, language "en", no redirects |
| HomePage.Home.CheckAuth | app/page.tsx:14-25 | loading ends; logged in exactly when `jha_user` is truthy; the language is the stored one when truthy, else "en"; store and redirects unchanged |
| HomePage.CheckAuthSettles | app/page.tsx:14-25 | the outcome of `checkAuth` does not depend on the loading, login and language values it replaces, a second check changes nothing, and afterwards the spinner is gone and the dashboard is chosen exactly when a non-empty user is stored |
| HomePage.Home.HandleLogin | app/page.tsx:27-35 | the fixed demo record is stored under `jha_user`, the flag is set and a redirect to "/dashboard" is recorded |
| HomePage.LoginSurvivesReload | app/page.tsx:27-35 | after the demo login, the next visit finds the visitor logged in and sends them to the dashboard |
| HomePage.LandingLoginShowsU | app/page.tsx:28-34 | when the dashboard reads the demo record without a display name, as it has only a `name`, the avatar after the demo login shows "U" |
| HomePage.LoginOpensDashboard | app/page.tsx:28-34 | after the demo login the dashboard does not redirect home, whatever the parser makes of the record |
| HomePage.Home.ToggleLanguage | app/page.tsx:37-41 | the language is toggled and stored under `jha_language`; login state and redirects unchanged |
| HomePage.ViewOf | app/page.tsx:43-57 | a spinner exactly while loading, then the dashboard exactly when logged in, the landing page otherwise |
| HomePage.Home.View | app/page.tsx:43-57 | the page redirects to the dashboard exactly when loading is over and the visitor is logged in |
| Text.LowerIdempotent | components/Notes/NotesManager.tsx:82-84 | lower-casing a lower-cased string changes nothing |
| Text.IncludesIffOccurs | components/Notes/NotesManager.tsx:82-84 | `includes` holds exactly when the query occurs at some position of the string |
| NoteFilter.Filter | components/Notes/NotesManager.tsx:81-87 | a note is in the result exactly when it is in the list and passes both the search and the subject condition; the result is never longer than the list. Multiplicities are pinned by `FilterMultiset` |
| NoteFilter.FilterIsSubsequence | components/Notes/NotesManager.tsx:81 | the result is a subsequence of the list, in the original order |
| NoteFilter.FilterMultiset | components/Notes/NotesManager.tsx:81-87 | a note that passes occurs in the result exactly as often as in the list, one that fails not at all; so the result is a sub-multiset of the list |
| NoteFilter.FilterNoDuplicates | components/Notes/NotesManager.tsx:81 | a list without repeats filters to a list without repeats |
| NoteFilter.FilterKeepsAllIff | components/Notes/NotesManager.tsx:81-87 | nothing is filtered out exactly when every note passes, and then the result is the list itself |
| NoteFilter.EmptySearchShowsAll | components/Notes/NotesManager.tsx:81-87 | an empty search with "all" shows every note |
| NoteFilter.SearchIgnoresQueryCase | components/Notes/NotesManager.tsx:82-84 | a query and its lower-cased form match the same notes |
| NoteFilter.FilterIgnoresQueryCase | components/Notes/NotesManager.tsx:81-87 | a query and its lower-cased form filter to the same list |
| NoteFilter.SubjectSelectorIsCaseSensitive | components/Notes/NotesManager.tsx:82-85 | a "Polity" note passes the selector "Polity" but not "polity", while searching "polity" or "POLITY" finds it |
| NoteFilter.AiCount | components/Notes/NotesManager.tsx:150 | at most the total; zero exactly when no note is AI generated, the total exactly when all are. Its exact value is stated by `AiCountCountsFlags` |
| NoteFilter.AiCountCountsFlags | components/Notes/NotesManager.tsx:150 | the AI counter equals the number of `true` values among the notes' `isAiGenerated` flags |
| NoteFilter.Subjects | components/Notes/NotesManager.tsx:158 | a subject is counted exactly when some note has it, and there are no more subjects than notes |
| NoteFilter.StatsOf | components/Notes/NotesManager.tsx:143-166 | the total is the list's length. The AI, subject and filtered counters are at most the total, and the filtered counter equals it exactly when every note passes |
| NotesManager.MockTitles | components/Notes/NotesManager.tsx:31-77 | for "en" the four notes carry the English titles, for any other language the Hindi ones |
| NotesManager.TitlesFollowLanguage | components/Notes/NotesManager.tsx:31-77 | every note's title under "en" differs from its title under any other language |
| NotesManager.OnlyTitlesDependOnLanguage | components/Notes/NotesManager.tsx:31-77 | the fixtures for two languages differ at most in their titles |
| NotesManager.MockIds | components/Notes/NotesManager.tsx:32-75 | the four ids are "1" to "4" in order, pairwise distinct |
| NotesManager.MockSubjectsOffered | components/Notes/NotesManager.tsx:31-79 | every fixture subject is a choice of the selector other than "all" |
| NotesManager.MockStats | components/Notes/NotesManager.tsx:143-158 | in either language the counters show four notes, two AI generated and four subjects |
| NotesManager.EconomicsShowsBudget | components/Notes/NotesManager.tsx:65-87 | with an empty search, selecting "Economics" shows only the budget note |
| NotesManager.FreshManagerShowsAll | components/Notes/NotesManager.tsx:25-87 | with the initial search and subject the loaded fixture is shown in full |
| NotesManager.Manager.constructor | components/Notes/NotesManager.tsx:25-27 | no notes, an empty search and the subject "all" |
| NotesManager.Manager.LoadMockNotes | components/Notes/NotesManager.tsx:31-77 | the notes become the fixture for the language; search and subject are kept |
| NotesManager.Manager.SetSearchTerm | components/Notes/NotesManager.tsx:101 | only the search text changes |
| NotesManager.Manager.SetSelectedSubject | components/Notes/NotesManager.tsx:111 | only the selected subject changes |
| NotesManager.Manager.ShowsEmptyState | components/Notes/NotesManager.tsx:175 | "No notes found" is shown exactly when no note passes search and selector |
| NotesManager.Manager.Counters | components/Notes/NotesManager.tsx:141-175 | the counters are bounded by the total, and the filtered counter is zero exactly when the empty state is shown |
| NotesPage.FilteredNotesUnfold | app/notes/page.tsx:61-67 | filtering the page's notes decides each of the three notes in order |
| NotesPage.RightsMissesGeo | app/notes/page.tsx:14-25 | the constitution note does not match "geo" |
| NotesPage.ClimateMatchesGeo | app/notes/page.tsx:26-35 | the geography note matches "geo" |
| NotesPage.FreedomMissesGeo | app/notes/page.tsx:36-46 | the history note does not match "geo" |
| NotesPage.GeoFindsGeography | app/notes/page.tsx:14-67 | searching "geo" with "all" shows exactly note "2" |
| NotesPage.EmptySearchPolity | app/notes/page.tsx:14-67 | an empty search with "Polity" shows exactly note "1" |
| NotesPage.NothingMatchesZzz | app/notes/page.tsx:14-67 | "zzz" shows nothing under any subject |
| NotesPage.PageStats | app/notes/page.tsx:179-196 | three notes, one AI generated, three subjects, at most three shown |
| NotesPage.FilteredIsSubsequence | app/notes/page.tsx:14-67 | whatever is searched, the page shows its fixed notes in their order and without repeats |
| NotesEditor.Editor.constructor | components/Notes/NotesEditor.tsx:24-31 | all five fields empty and nothing being generated |
| NotesEditor.FromNote | components/Notes/NotesEditor.tsx:34-44 | title, content, subject and topic are copied; the subtopic is the note's, or empty when it has none |
| NotesEditor.Editor.LoadNote | components/Notes/NotesEditor.tsx:34-44 | a note fills the form that way; no note leaves the form as it was |
| NotesEditor.WithField | components/Notes/NotesEditor.tsx:51-53 | the named field takes the value and every other field keeps its own |
| NotesEditor.WithFieldLaws | components/Notes/NotesEditor.tsx:51-53 | writing back a field's own value changes nothing, and the last of two writes to a field wins |
| NotesEditor.WithFieldCommutes | components/Notes/NotesEditor.tsx:51-53 | writes to two different fields can be made in either order |
| NotesEditor.Editor.HandleInputChange | components/Notes/NotesEditor.tsx:51-53 | the form becomes the single-field update; the generating flag is untouched |
| NotesEditor.GenerationGuardFields | components/Notes/NotesEditor.tsx:51-59 | after writing the subject (or topic), generation may start exactly when the value and the topic (or subject) are non-empty. Writing title, content or subtopic never changes the guard; the blank form fails it |
| NotesEditor.GenerationReenablesButton | components/Notes/NotesEditor.tsx:55-76 | an enabled generate button is disabled while generating and enabled again after any output |
| NotesEditor.Editor.BeginGeneration | components/Notes/NotesEditor.tsx:55-63 | a request is made exactly when the guard passes, and then it carries the form's subject, topic and the language and the flag is raised. A refused start changes nothing; the form is never changed. An enabled button always starts a request, after which it is disabled |
| NotesEditor.TitleAfterGeneration | components/Notes/NotesEditor.tsx:68 | a typed title is kept; an empty one becomes "subject - topic"; the result is never empty |
| NotesEditor.AfterGeneration | components/Notes/NotesEditor.tsx:64-70 | empty output leaves the form. Other output replaces the content and defaults the title. Subject, topic and subtopic are always kept |
| NotesEditor.AfterGenerationIdempotent | components/Notes/NotesEditor.tsx:64-70 | applying the same output twice is applying it once |
| NotesEditor.Editor.FinishGeneration | components/Notes/NotesEditor.tsx:62-76 | returned text updates the form as it stands at completion, a throw leaves it, and the flag is lowered in every case. Afterwards the button is enabled exactly when the form before completion passed the guard |
| NotesEditor.SaveNeedsEachRequiredField | components/Notes/NotesEditor.tsx:79-83 | after writing the title, content or subject, save accepts exactly when that value and the other two required fields are non-empty; the blank form is rejected |
| NotesEditor.SaveIgnoresTopics | components/Notes/NotesEditor.tsx:80 | changing topic or subtopic never changes whether save is accepted |
| NotesEditor.GenerationMakesSaveable | components/Notes/NotesEditor.tsx:56-83 | a form that passed the generation guard and received content can be saved |
| NotesEditor.Editor.HandleSave | components/Notes/NotesEditor.tsx:79-89 | the outcome is "saved", and the editor is left, exactly when the required fields are filled in. Otherwise it is "rejected". No state changes |

## Left out

- Rendering: markup, CSS classes, icons and the localised labels of every page are not modelled. The `alert` and `console` calls are also left out; where an alert marks a rejection, the model returns the outcome instead.
- Routing: `router.push` in a handler or effect is modelled only as the target appended to a `redirects` list. The landing page's push during render is modelled as `View() == RedirectToDashboard` (`HomePage.ViewOf`, `HomePage.Home.View`) and appends nothing. Navigation itself and the `onBack` and `onEditNote` callbacks are not modelled; `HandleSave` returns `Saved` where the editor calls `onBack`.
- Time: the 800 ms `setTimeout` before the landing page's `checkAuth` is not modelled; `Home.CheckAuth` is the moment the callback runs. `Date.now()` is the `now: nat` parameter of the sign-in operations.
- Asynchrony: the `async` handlers of the context run to completion in one step. The editor's generation is split at its one `await` into `BeginGeneration` and `FinishGeneration`. React's batching of state updates within one handler is not modelled.
- JSON: `JSON.stringify` and `JSON.parse` are abstract functions. The context gets them as a `Codec` whose parse throws (`Threw`), yields `null` or yields a user. A parsed value that is neither `null` nor a user object is not modelled in the context.
- DashboardPage.Dashboard.CheckAuth: the dashboard's `decode` yields its own user record or `None` for a throw. A non-object value reads as a record without fields. A stored "null" is not modelled: the source sets the user to `null`, and the render then fails at `user.displayName`. A `displayName` that is not a string is not modelled either.
- DashboardPage.Dashboard.CheckAuth: the model stops at the `ParseThrew` outcome. The uncaught exception, the error boundary and the teardown of the page are not modelled.
- DashboardPage.AvatarInitial: strings are sequences of Unicode characters, not of UTF-16 code units. For a name that starts outside the Basic Multilingual Plane, the source's `displayName?.[0]` shows a lone surrogate where the model shows the whole character.
- Dates: note dates are their ISO date strings, since only their display depends on them.
- Lower-casing: `toLowerCase` is ASCII only. The Hindi titles are Devanagari, which has no case, so the fixture results do not depend on this.
- Text.Lower: does not model Unicode case mapping beyond ASCII letters, for the reason above.
- lib/openai.ts is not part of this model. The generator is the `Returned(text)` or `Threw` result passed to `FinishGeneration`, and its latency is not modelled. The editor passes "en" or "hi" as the language, while the stub compares with "english"; the model only records the language in the `Request`.
- lib/firebase.ts is not part of this model (SDK initialisation only).
- app/layout.tsx, next.config.js and app/tests/page.tsx hold wiring, configuration and static fixtures only.
- components/Layout/Sidebar.tsx and components/Auth/LoginForm.tsx only delegate to the context and are not part of this model.
- The `useAuth` and `useTheme` errors outside a provider are React context mechanics and are not modelled.
- View-only state is not modelled: `viewMode`, `isCollapsed`, `activeTab`, `selectedNote`, the notes page's collapse toggle and the dashboard's collapse toggle. The notes page's `handleCreateNote` and `handleEditNote` only raise alerts.
- NotesEditor.Editor.HandleInputChange: takes one of the five `Field` names. The source accepts any string as the field name, but every input passes one of the five.
- NotesEditor.Editor.BeginGeneration: does not check `isGenerating`, just as the handler does not; the disabled button (`GenerateEnabled`) is what prevents a second start.
- The `thinkias_*` keys of the context and the `jha_*` keys of the two pages live in the same browser store but are never reconciled by the code, and the model keeps them apart.
- NotesPage's search text and selected subject are parameters of `FilteredNotes`, since nothing on that page reads them except the filter.
