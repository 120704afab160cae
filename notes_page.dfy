/**
 * The standalone notes page: a constant list of three notes (it has no
 * setter) filtered by the shared search and subject conditions.
 */
module NotesPage {
  import opened Wrappers
  import opened Text
  import opened NoteFilter

  // The searched fields of the fixture, named so that lemmas can speak about them one at a time.
  const RightsTitleHead := "Indian Constitution - Fundamental Ri"
  const RightsTitle := RightsTitleHead + "ghts"
  const ClimateTitle := "Geography - Climate Patterns"
  const FreedomTitle := "Modern History - Freedom Movement"

  const RightsNote := Note("1", RightsTitle,
    "Detailed notes on fundamental rights...", "Polity", "Constitution",
    Some("Fundamental Rights"), "2024-01-15", "2024-01-16", false)

  const ClimateNote := Note("2", ClimateTitle,
    "AI-generated notes on Indian climate...", "Geography", "Climate",
    None, "2024-01-14", "2024-01-14", true)

  const FreedomNote := Note("3", FreedomTitle,
    "Comprehensive notes on India's freedom struggle...", "History", "Modern History",
    Some("Freedom Movement"), "2024-01-13", "2024-01-15", false)

  const PageNotes: seq<Note> := [RightsNote, ClimateNote, FreedomNote]

  /** The list the page shows for the current search text and subject. */
  function FilteredNotes(query: string, selected: string): seq<Note> {
    Filter(PageNotes, query, selected)
  }

  function KeptIf(n: Note, query: string, selected: string): seq<Note> {
    if Keep(n, query, selected) then [n] else []
  }

  /** Filtering the fixture is deciding the three notes one by one. */
  lemma FilteredNotesUnfold(query: string, selected: string)
    ensures FilteredNotes(query, selected)
      == KeptIf(RightsNote, query, selected) + KeptIf(ClimateNote, query, selected)
       + KeptIf(FreedomNote, query, selected)
  {
    var tail2 := [FreedomNote];
    var tail1 := [ClimateNote, FreedomNote];
    assert tail2[1..] == [];
    assert Filter(tail2, query, selected) == KeptIf(FreedomNote, query, selected);
    assert tail1[1..] == tail2;
    assert Filter(tail1, query, selected)
      == KeptIf(ClimateNote, query, selected) + KeptIf(FreedomNote, query, selected);
    assert PageNotes[1..] == tail1;
  }

  // Facts about the fixture's letters, kept apart from the lemmas that lower-case them.

  lemma RightsHeadLacksZ()
    ensures 'z' !in RightsTitleHead && 'Z' !in RightsTitleHead
  {
  }

  lemma RightsHeadLacksG()
    ensures 'g' !in RightsTitleHead && 'G' !in RightsTitleHead
  {
  }

  lemma RightsLacksZ()
    ensures 'z' !in RightsNote.title && 'Z' !in RightsNote.title
    ensures 'z' !in RightsNote.subject && 'Z' !in RightsNote.subject
    ensures 'z' !in RightsNote.topic && 'Z' !in RightsNote.topic
  {
    RightsHeadLacksZ();
    assert 'z' !in "ghts" && 'Z' !in "ghts";
  }

  lemma RightsGLetters()
    ensures RightsNote.title == RightsTitleHead + "ghts"
    ensures 'g' !in RightsTitleHead && 'G' !in RightsTitleHead
    ensures 'g' !in RightsNote.subject && 'G' !in RightsNote.subject
    ensures 'g' !in RightsNote.topic && 'G' !in RightsNote.topic
  {
    RightsHeadLacksG();
  }

  lemma ClimateTitleLacksZ()
    ensures 'z' !in ClimateTitle && 'Z' !in ClimateTitle
  {
  }

  lemma ClimateLacksZ()
    ensures 'z' !in ClimateNote.title && 'Z' !in ClimateNote.title
    ensures 'z' !in ClimateNote.subject && 'Z' !in ClimateNote.subject
    ensures 'z' !in ClimateNote.topic && 'Z' !in ClimateNote.topic
  {
    ClimateTitleLacksZ();
  }

  lemma FreedomTitleLacksZ()
    ensures 'z' !in FreedomTitle && 'Z' !in FreedomTitle
  {
  }

  lemma FreedomTitleLacksG()
    ensures 'g' !in FreedomTitle && 'G' !in FreedomTitle
  {
  }

  lemma FreedomLacksZ()
    ensures 'z' !in FreedomNote.title && 'Z' !in FreedomNote.title
    ensures 'z' !in FreedomNote.subject && 'Z' !in FreedomNote.subject
    ensures 'z' !in FreedomNote.topic && 'Z' !in FreedomNote.topic
  {
    FreedomTitleLacksZ();
  }

  lemma FreedomLacksG()
    ensures 'g' !in FreedomNote.title && 'G' !in FreedomNote.title
    ensures 'g' !in FreedomNote.subject && 'G' !in FreedomNote.subject
    ensures 'g' !in FreedomNote.topic && 'G' !in FreedomNote.topic
  {
    FreedomTitleLacksG();
  }

  /**
   * A lower-case query whose first letter occurs, in neither case, in any
   * of a note's searched fields does not find the note.
   */
  lemma MissesWithoutLetter(n: Note, query: string, upper: char)
    requires |query| > 0 && Lower(query) == query
    requires 'A' <= upper <= 'Z' && LowerChar(upper) == query[0]
    requires query[0] !in n.title && upper !in n.title
    requires query[0] !in n.subject && upper !in n.subject
    requires query[0] !in n.topic && upper !in n.topic
    ensures !MatchesSearch(n, query)
  {
    LowerAvoids(n.title, query[0], upper);
    LowerAvoids(n.subject, query[0], upper);
    LowerAvoids(n.topic, query[0], upper);
    NotIncludedWithoutFirstChar(Lower(n.title), query);
    NotIncludedWithoutFirstChar(Lower(n.subject), query);
    NotIncludedWithoutFirstChar(Lower(n.topic), query);
  }

  /** A title whose head has no 'g' and that ends in "ghts" does not contain "geo". */
  lemma TitleMissesGeo(head: string)
    requires 'g' !in head && 'G' !in head
    ensures !Includes(Lower(head + "ghts"), "geo")
  {
    LowerAppend(head, "ghts");
    LowerAvoids(head, 'g', 'G');
    assert Lower("ghts") == "ghts";
    assert "ghts"[1..] == "hts";
    NotIncludedWithoutFirstChar("hts", "geo");
    NotIncludedAcross(Lower(head), "ghts", "geo");
  }

  /** Subject and topic without a 'g' do not contain "geo". */
  lemma FieldsMissGeo(subject: string, topic: string)
    requires 'g' !in subject && 'G' !in subject && 'g' !in topic && 'G' !in topic
    ensures !Includes(Lower(subject), "geo") && !Includes(Lower(topic), "geo")
  {
    LowerAvoids(subject, 'g', 'G');
    LowerAvoids(topic, 'g', 'G');
    NotIncludedWithoutFirstChar(Lower(subject), "geo");
    NotIncludedWithoutFirstChar(Lower(topic), "geo");
  }

  lemma RightsMissesGeo()
    ensures !MatchesSearch(RightsNote, "geo")
  {
    assert Lower("geo") == "geo";
    RightsGLetters();
    TitleMissesGeo(RightsTitleHead);
    FieldsMissGeo(RightsNote.subject, RightsNote.topic);
  }

  lemma ClimateMatchesGeo()
    ensures MatchesSearch(ClimateNote, "geo")
  {
    assert Lower("geo") == "geo";
    assert Lower(ClimateNote.subject)[..3] == "geo";
  }

  lemma FreedomMissesGeo()
    ensures !MatchesSearch(FreedomNote, "geo")
  {
    assert Lower("geo") == "geo";
    FreedomLacksG();
    MissesWithoutLetter(FreedomNote, "geo", 'G');
  }

  /** Searching "geo" across all subjects finds only the geography note. */
  lemma GeoFindsGeography()
    ensures FilteredNotes("geo", AllSubjects) == [ClimateNote]
  {
    RightsMissesGeo();
    ClimateMatchesGeo();
    FreedomMissesGeo();
    FilteredNotesUnfold("geo", AllSubjects);
  }

  /** An empty search with subject "Polity" finds only the polity note. */
  lemma EmptySearchPolity()
    ensures FilteredNotes("", "Polity") == [RightsNote]
  {
    assert Lower("") == "";
    IncludesEmpty(Lower(RightsNote.title));
    FilteredNotesUnfold("", "Polity");
  }

  /** Nothing matches "zzz", whatever the subject. */
  lemma NothingMatchesZzz(selected: string)
    ensures FilteredNotes("zzz", selected) == []
  {
    assert Lower("zzz") == "zzz";
    RightsLacksZ();
    MissesWithoutLetter(RightsNote, "zzz", 'Z');
    ClimateLacksZ();
    MissesWithoutLetter(ClimateNote, "zzz", 'Z');
    FreedomLacksZ();
    MissesWithoutLetter(FreedomNote, "zzz", 'Z');
    FilteredNotesUnfold("zzz", selected);
  }

  /** The counters: three notes, one AI generated, three subjects, at most three shown. */
  lemma PageStats(query: string, selected: string)
    ensures StatsOf(PageNotes, query, selected).total == 3
    ensures StatsOf(PageNotes, query, selected).aiGenerated == 1
    ensures StatsOf(PageNotes, query, selected).subjects == 3
    ensures StatsOf(PageNotes, query, selected).filtered <= 3
  {
    PageAiCount();
    PageSubjects();
  }

  lemma PageTails()
    ensures PageNotes[1..] == [ClimateNote, FreedomNote]
    ensures [ClimateNote, FreedomNote][1..] == [FreedomNote]
    ensures [FreedomNote][1..] == []
  {
  }

  lemma PageAiCount()
    ensures AiCount(PageNotes) == 1
  {
    PageTails();
    assert AiCount([FreedomNote]) == 0;
    assert AiCount([ClimateNote, FreedomNote]) == 1;
  }

  lemma PageSubjects()
    ensures Subjects(PageNotes) == {"Polity", "Geography", "History"}
    ensures |Subjects(PageNotes)| == 3
  {
    PageTails();
    assert Subjects([FreedomNote]) == {"History"};
    assert Subjects([ClimateNote, FreedomNote]) == {"Geography", "History"};
  }

  /** Whatever is typed or selected, the page shows the fixture's notes in the fixture's order. */
  lemma FilteredIsSubsequence(query: string, selected: string)
    ensures IsSubsequence(FilteredNotes(query, selected), PageNotes)
    ensures NoDuplicates(FilteredNotes(query, selected))
  {
    FilterIsSubsequence(PageNotes, query, selected);
    FilterNoDuplicates(PageNotes, query, selected);
  }
}
