/**
 * The notes manager: a list of notes loaded from a fixture whenever the
 * interface language changes, a search text and a subject selector that
 * filter it, and the counters shown above the list.
 */
module NotesManager {
  import opened Wrappers
  import opened Text
  import opened NoteFilter

  /** The choices of the subject selector; "all" is the sentinel that disables the subject condition. */
  const SubjectOptions: seq<string> :=
    [AllSubjects, "Polity", "Geography", "History", "Economics", "Environment", "Science & Technology"]

  /** A title is the English one exactly when the language is "en", and the Hindi one otherwise. */
  function Localized(language: string, english: string, hindi: string): (r: string)
    ensures language == "en" ==> r == english
    ensures language != "en" ==> r == hindi
  {
    if language == "en" then english else hindi
  }

  // The fixture's titles in English and in Hindi.
  const RightsTitleEn := "Indian Constitution - Fundamental Rights"
  const RightsTitleHi := "भारतीय संविधान - मौलिक अधिकार"
  const ClimateTitleEn := "Geography - Climate Patterns"
  const ClimateTitleHi := "भूगोल - जलवायु पैटर्न"
  const FreedomTitleEn := "Modern History - Freedom Movement"
  const FreedomTitleHi := "आधुनिक इतिहास - स्वतंत्रता संग्राम"
  const BudgetTitleEn := "Economics - Budget Analysis"
  const BudgetTitleHi := "अर्थशास्त्र - बजट विश्लेषण"

  /** The manager's fixture; only the titles follow the language. */
  function MockNotes(language: string): (r: seq<Note>)
    ensures |r| == 4
  {
    [ Note("1", Localized(language, RightsTitleEn, RightsTitleHi),
        "Detailed notes on fundamental rights...", "Polity", "Constitution",
        Some("Fundamental Rights"), "2024-01-15", "2024-01-16", false),
      Note("2", Localized(language, ClimateTitleEn, ClimateTitleHi),
        "AI-generated notes on Indian climate...", "Geography", "Climate",
        None, "2024-01-14", "2024-01-14", true),
      Note("3", Localized(language, FreedomTitleEn, FreedomTitleHi),
        "Comprehensive notes on India's freedom struggle...", "History", "Modern History",
        Some("Freedom Movement"), "2024-01-13", "2024-01-15", false),
      Note("4", Localized(language, BudgetTitleEn, BudgetTitleHi),
        "Union Budget 2024 analysis and key points...", "Economics", "Budget",
        None, "2024-01-12", "2024-01-12", true) ]
  }

  /** The fixture carries the English titles for "en" and the Hindi ones for any other language. */
  lemma MockTitles(language: string)
    ensures language == "en" ==>
      && MockNotes(language)[0].title == RightsTitleEn && MockNotes(language)[1].title == ClimateTitleEn
      && MockNotes(language)[2].title == FreedomTitleEn && MockNotes(language)[3].title == BudgetTitleEn
    ensures language != "en" ==>
      && MockNotes(language)[0].title == RightsTitleHi && MockNotes(language)[1].title == ClimateTitleHi
      && MockNotes(language)[2].title == FreedomTitleHi && MockNotes(language)[3].title == BudgetTitleHi
  {
  }

  /** Every title changes between "en" and any other language, since no Hindi title starts with the letter of its English one. */
  lemma TitlesFollowLanguage(other: string)
    requires other != "en"
    ensures forall i :: 0 <= i < 4 ==> MockNotes("en")[i].title != MockNotes(other)[i].title
  {
    MockTitles("en");
    MockTitles(other);
    assert RightsTitleEn[0] != RightsTitleHi[0];
    assert ClimateTitleEn[0] != ClimateTitleHi[0];
    assert FreedomTitleEn[0] != FreedomTitleHi[0];
    assert BudgetTitleEn[0] != BudgetTitleHi[0];
  }

  /** Switching the language changes the titles of the fixture and nothing else. */
  lemma OnlyTitlesDependOnLanguage(l1: string, l2: string)
    ensures forall i :: 0 <= i < 4 ==> MockNotes(l1)[i].(title := "") == MockNotes(l2)[i].(title := "")
  {
  }

  /** The fixture's ids are "1" to "4", in order, and therefore distinct. */
  lemma MockIds(language: string)
    ensures MockNotes(language)[0].id == "1" && MockNotes(language)[1].id == "2"
    ensures MockNotes(language)[2].id == "3" && MockNotes(language)[3].id == "4"
    ensures forall i, j :: 0 <= i < j < 4 ==> MockNotes(language)[i].id != MockNotes(language)[j].id
  {
  }

  /** Every subject of the fixture is one the selector offers. */
  lemma MockSubjectsOffered(language: string)
    ensures forall n :: n in MockNotes(language) ==> n.subject in SubjectOptions && n.subject != AllSubjects
  {
  }

  lemma MockTails(ns: seq<Note>)
    requires |ns| == 4
    ensures ns[1..] == [ns[1], ns[2], ns[3]]
    ensures [ns[1], ns[2], ns[3]][1..] == [ns[2], ns[3]]
    ensures [ns[2], ns[3]][1..] == [ns[3]]
    ensures [ns[3]][1..] == []
  {
  }

  lemma MockAiCount(language: string)
    ensures AiCount(MockNotes(language)) == 2
  {
    var ns := MockNotes(language);
    MockTails(ns);
    assert AiCount([ns[3]]) == 1;
    assert AiCount([ns[2], ns[3]]) == 1;
    assert AiCount([ns[1], ns[2], ns[3]]) == 2;
  }

  /** The subjects of four notes are their four subject fields. */
  lemma FourSubjects(ns: seq<Note>)
    requires |ns| == 4
    ensures Subjects(ns) == {ns[0].subject, ns[1].subject, ns[2].subject, ns[3].subject}
  {
    MockTails(ns);
    assert Subjects([ns[3]]) == {ns[3].subject};
    assert Subjects([ns[2], ns[3]]) == {ns[2].subject, ns[3].subject};
    assert Subjects([ns[1], ns[2], ns[3]]) == {ns[1].subject, ns[2].subject, ns[3].subject};
  }

  /** Four pairwise different values make a set of four. */
  lemma FourDistinct(a: string, b: string, c: string, d: string)
    requires a != b && a != c && a != d && b != c && b != d && c != d
    ensures |{a, b, c, d}| == 4
  {
    assert {a, b, c, d} == {a} + ({b} + ({c} + {d}));
    assert |{c} + {d}| == 2;
    assert |{b} + ({c} + {d})| == 3;
  }

  lemma MockSubjects(language: string)
    ensures Subjects(MockNotes(language)) == {"Polity", "Geography", "History", "Economics"}
    ensures |Subjects(MockNotes(language))| == 4
  {
    FourSubjects(MockNotes(language));
    FourDistinct("Polity", "Geography", "History", "Economics");
  }

  /** The counters on the fixture, in either language: four notes, two AI generated, four subjects. */
  lemma MockStats(language: string, query: string, selected: string)
    ensures StatsOf(MockNotes(language), query, selected).total == 4
    ensures StatsOf(MockNotes(language), query, selected).aiGenerated == 2
    ensures StatsOf(MockNotes(language), query, selected).subjects == 4
  {
    MockAiCount(language);
    MockSubjects(language);
  }

  /** With an empty search, selecting "Economics" shows only the budget note, in either language. */
  lemma EconomicsShowsBudget(language: string)
    ensures Filter(MockNotes(language), "", "Economics") == [MockNotes(language)[3]]
  {
    var ns := MockNotes(language);
    MockTails(ns);
    assert Lower("") == "";
    IncludesEmpty(Lower(ns[3].title));
    assert Filter([ns[3]], "", "Economics") == [ns[3]];
    assert Filter([ns[2], ns[3]], "", "Economics") == [ns[3]];
    assert Filter([ns[1], ns[2], ns[3]], "", "Economics") == [ns[3]];
  }

  /** The manager component's own state; the language comes from the application context. */
  class Manager {
    var notes: seq<Note>
    var searchTerm: string
    var selectedSubject: string

    /** On first render there are no notes, no search and every subject. */
    constructor()
      ensures notes == [] && searchTerm == "" && selectedSubject == AllSubjects
    {
      notes := [];
      searchTerm := "";
      selectedSubject := AllSubjects;
    }

    /** The effect that runs whenever the language changes: it replaces the notes with the fixture. */
    method LoadMockNotes(language: string)
      modifies this
      ensures notes == MockNotes(language)
      ensures searchTerm == old(searchTerm) && selectedSubject == old(selectedSubject)
    {
      notes := MockNotes(language);
    }

    method SetSearchTerm(value: string)
      modifies this
      ensures searchTerm == value
      ensures notes == old(notes) && selectedSubject == old(selectedSubject)
    {
      searchTerm := value;
    }

    method SetSelectedSubject(value: string)
      modifies this
      ensures selectedSubject == value
      ensures notes == old(notes) && searchTerm == old(searchTerm)
    {
      selectedSubject := value;
    }

    /** The notes on screen. */
    function Filtered(): seq<Note>
      reads this
    {
      Filter(notes, searchTerm, selectedSubject)
    }

    /** The "No notes found" panel is shown exactly when no note passes the search and the selector. */
    function ShowsEmptyState(): (r: bool)
      reads this
      ensures r <==> forall n :: n in notes ==> !Keep(n, searchTerm, selectedSubject)
    {
      var shown := Filtered();
      assert |shown| > 0 ==> shown[0] in shown;
      |shown| == 0
    }

    /** The four counters; the "Filtered" counter reads zero exactly when the empty state is shown. */
    function Counters(): (r: Stats)
      reads this
      ensures r.total == |notes|
      ensures r.aiGenerated <= r.total && r.subjects <= r.total && r.filtered <= r.total
      ensures r.filtered == 0 <==> ShowsEmptyState()
    {
      StatsOf(notes, searchTerm, selectedSubject)
    }
  }

  /** After the fixture loads into a fresh manager, all four notes are shown. */
  lemma FreshManagerShowsAll(language: string)
    ensures Filter(MockNotes(language), "", AllSubjects) == MockNotes(language)
  {
    EmptySearchShowsAll(MockNotes(language));
  }
}
