/**
 * The note list filter shared, line for line, by the notes manager and the
 * notes page: a case-insensitive search over title, subject and topic,
 * and a case-sensitive subject selector with the sentinel "all".
 */
module NoteFilter {
  import opened Wrappers
  import opened Text

  const AllSubjects := "all"

  /** A note record; the two dates are kept as the text handed to `new Date(...)`. */
  datatype Note = Note(id: string, title: string, content: string, subject: string, topic: string,
                       subtopic: Option<string>, createdAt: string, updatedAt: string,
                       isAiGenerated: bool)

  predicate MatchesSearch(n: Note, query: string) {
    var q := Lower(query);
    Includes(Lower(n.title), q) || Includes(Lower(n.subject), q) || Includes(Lower(n.topic), q)
  }

  predicate MatchesSubject(n: Note, selected: string) {
    selected == AllSubjects || n.subject == selected
  }

  predicate Keep(n: Note, query: string, selected: string) {
    MatchesSearch(n, query) && MatchesSubject(n, selected)
  }

  /** `notes.filter(...)`: the notes kept by the search and subject conditions, in their order. */
  function Filter(notes: seq<Note>, query: string, selected: string): (r: seq<Note>)
    ensures |r| <= |notes|
    ensures forall n :: n in r <==> n in notes && Keep(n, query, selected)
  {
    if notes == [] then []
    else (if Keep(notes[0], query, selected) then [notes[0]] else []) + Filter(notes[1..], query, selected)
  }

  /** `xs` is `ys` with some elements left out and the rest in their original order. */
  ghost predicate IsSubsequence<T>(xs: seq<T>, ys: seq<T>)
    decreases |ys|
  {
    if xs == [] then true
    else if ys == [] then false
    else (xs[0] == ys[0] && IsSubsequence(xs[1..], ys[1..])) || IsSubsequence(xs, ys[1..])
  }

  ghost predicate NoDuplicates<T>(s: seq<T>) {
    forall i, j :: 0 <= i < j < |s| ==> s[i] != s[j]
  }

  /** The filter keeps the original order: its result is a subsequence of the notes. */
  lemma {:induction false} FilterIsSubsequence(notes: seq<Note>, query: string, selected: string)
    ensures IsSubsequence(Filter(notes, query, selected), notes)
    decreases |notes|
  {
    if notes != [] {
      var rest := Filter(notes[1..], query, selected);
      FilterIsSubsequence(notes[1..], query, selected);
      if Keep(notes[0], query, selected) {
        assert Filter(notes, query, selected) == [notes[0]] + rest;
        assert ([notes[0]] + rest)[1..] == rest;
      } else {
        assert Filter(notes, query, selected) == rest;
        SubsequenceDropHead(rest, notes);
      }
    }
  }

  lemma {:induction false} SubsequenceDropHead<T>(xs: seq<T>, ys: seq<T>)
    requires ys != [] && IsSubsequence(xs, ys[1..])
    ensures IsSubsequence(xs, ys)
  {
  }

  /**
   * The filter keeps every copy of a note that passes and no copy of one that
   * does not, so it never repeats a note more often than the input has it.
   */
  lemma {:induction false} FilterMultiset(notes: seq<Note>, query: string, selected: string)
    ensures forall x :: multiset(Filter(notes, query, selected))[x] ==
                          if Keep(x, query, selected) then multiset(notes)[x] else 0
    ensures multiset(Filter(notes, query, selected)) <= multiset(notes)
    decreases |notes|
  {
    if notes != [] {
      FilterMultiset(notes[1..], query, selected);
      assert notes == [notes[0]] + notes[1..];
      var head := if Keep(notes[0], query, selected) then [notes[0]] else [];
      assert Filter(notes, query, selected) == head + Filter(notes[1..], query, selected);
    }
  }

  /** A list without duplicates is filtered into a list without duplicates. */
  lemma {:induction false} FilterNoDuplicates(notes: seq<Note>, query: string, selected: string)
    requires NoDuplicates(notes)
    ensures NoDuplicates(Filter(notes, query, selected))
    decreases |notes|
  {
    if notes != [] {
      var rest := Filter(notes[1..], query, selected);
      FilterNoDuplicates(notes[1..], query, selected);
      if Keep(notes[0], query, selected) {
        assert notes[0] !in notes[1..];
        assert notes[0] !in rest;
        var r := [notes[0]] + rest;
        forall i, j | 0 <= i < j < |r| ensures r[i] != r[j] {
          if i == 0 {
            assert r[j] == rest[j - 1];
          } else {
            assert r[i] == rest[i - 1] && r[j] == rest[j - 1];
          }
        }
      }
    }
  }

  /** The filter drops nothing exactly when every note passes both conditions. */
  lemma {:induction false} FilterKeepsAllIff(notes: seq<Note>, query: string, selected: string)
    ensures |Filter(notes, query, selected)| == |notes| <==> forall n :: n in notes ==> Keep(n, query, selected)
    ensures (forall n :: n in notes ==> Keep(n, query, selected)) ==> Filter(notes, query, selected) == notes
    decreases |notes|
  {
    if notes != [] {
      var tail := notes[1..];
      FilterKeepsAllIff(tail, query, selected);
      assert notes == [notes[0]] + tail;
      assert forall n :: n in notes <==> n == notes[0] || n in tail;
      if Keep(notes[0], query, selected) {
        assert Filter(notes, query, selected) == [notes[0]] + Filter(tail, query, selected);
      } else {
        assert Filter(notes, query, selected) == Filter(tail, query, selected);
        assert |Filter(notes, query, selected)| < |notes|;
      }
    }
  }

  /** An empty search with "all" shows every note. */
  lemma {:induction false} EmptySearchShowsAll(notes: seq<Note>)
    ensures Filter(notes, "", AllSubjects) == notes
    decreases |notes|
  {
    if notes != [] {
      assert Lower("") == "";
      IncludesEmpty(Lower(notes[0].title));
      EmptySearchShowsAll(notes[1..]);
    }
  }

  /** The search ignores the case of the query. */
  lemma SearchIgnoresQueryCase(n: Note, query: string)
    ensures MatchesSearch(n, query) == MatchesSearch(n, Lower(query))
  {
    LowerIdempotent(query);
  }

  lemma {:induction false} FilterIgnoresQueryCase(notes: seq<Note>, query: string, selected: string)
    ensures Filter(notes, query, selected) == Filter(notes, Lower(query), selected)
    decreases |notes|
  {
    if notes != [] {
      SearchIgnoresQueryCase(notes[0], query);
      FilterIgnoresQueryCase(notes[1..], query, selected);
    }
  }

  /** The selector, unlike the search, compares subjects exactly. */
  lemma SubjectSelectorIsCaseSensitive(n: Note)
    requires n.subject == "Polity"
    ensures Keep(n, "", "Polity")
    ensures !Keep(n, "", "polity")
    ensures Keep(n, "polity", AllSubjects) && Keep(n, "POLITY", AllSubjects)
  {
    assert Lower("") == "";
    IncludesEmpty(Lower(n.title));
    assert Lower("Polity") == "polity";
    assert Lower("polity") == "polity";
    assert Lower("POLITY") == "polity";
  }

  /** `notes.filter(n => n.isAiGenerated).length`. */
  function AiCount(notes: seq<Note>): (r: nat)
    ensures r <= |notes|
    ensures r == 0 <==> forall n :: n in notes ==> !n.isAiGenerated
    ensures r == |notes| <==> forall n :: n in notes ==> n.isAiGenerated
  {
    if notes == [] then 0 else (if notes[0].isAiGenerated then 1 else 0) + AiCount(notes[1..])
  }

  /** `notes.map(n => n.isAiGenerated)`. */
  function AiFlags(notes: seq<Note>): seq<bool> {
    seq(|notes|, i requires 0 <= i < |notes| => notes[i].isAiGenerated)
  }

  /** The AI counter is the number of `true` flags among the notes, one per AI-generated note. */
  lemma {:induction false} AiCountCountsFlags(notes: seq<Note>)
    ensures AiCount(notes) == multiset(AiFlags(notes))[true]
    decreases |notes|
  {
    if notes != [] {
      AiCountCountsFlags(notes[1..]);
      assert AiFlags(notes) == [notes[0].isAiGenerated] + AiFlags(notes[1..]);
    }
  }

  /** `new Set(notes.map(n => n.subject))`. */
  function Subjects(notes: seq<Note>): (r: set<string>)
    ensures forall x :: x in r <==> exists n :: n in notes && n.subject == x
    ensures |r| <= |notes|
  {
    if notes == [] then {} else {notes[0].subject} + Subjects(notes[1..])
  }

  /** The four counters above the list: total, AI generated, distinct subjects, filtered. */
  datatype Stats = Stats(total: nat, aiGenerated: nat, subjects: nat, filtered: nat)

  function StatsOf(notes: seq<Note>, query: string, selected: string): (r: Stats)
    ensures r.total == |notes|
    ensures r.aiGenerated <= r.total && r.subjects <= r.total && r.filtered <= r.total
    ensures r.filtered == r.total <==> forall n :: n in notes ==> Keep(n, query, selected)
  {
    FilterKeepsAllIff(notes, query, selected);
    Stats(|notes|, AiCount(notes), |Subjects(notes)|, |Filter(notes, query, selected)|)
  }
}
