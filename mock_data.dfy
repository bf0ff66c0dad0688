/** The dashboard's hard-coded notes, and what the model says the page shows
    for them. Long texts are written as concatenations of short pieces; the
    strings are the same. */
module MockData {
  import opened Seqs
  import opened Text
  import opened Notes
  import opened Dashboard
  import opened NoteCard

  const Content1 :=
    "Introduction to " +
    "supervised and " +
    "unsupervised " +
    "learning " +
    "algorithms. Key " +
    "concepts include " +
    "linear " +
    "regression, " +
    "decision trees, " +
    "neural networks..."

  const Content2 :=
    "Component " +
    "composition, " +
    "state management " +
    "with hooks, " +
    "performance " +
    "optimization " +
    "techniques, and " +
    "testing " +
    "strategies..."

  /** The text before and from "Q4" in the third note's content. */
  const Content3Head := "Discussed timeline for "
  const Content3Tail :=
    "Q4 deliverables, resource " +
    "allocation, and key milestones. " +
    "Action items assigned to team " +
    "leads..."
  const Content3 := Content3Head + Content3Tail

  const Content4 :=
    "Comprehensive " +
    "study guide " +
    "covering arrays, " +
    "linked lists, " +
    "trees, graphs, " +
    "sorting " +
    "algorithms, and " +
    "time complexity " +
    "analysis..."

  const Content5 :=
    "User-centered " +
    "design approach, " +
    "accessibility " +
    "guidelines, color " +
    "theory, " +
    "typography, and " +
    "responsive design " +
    "patterns..."

  /** The five mock notes; their times are offsets from the moment `loadedAt`
      (in milliseconds) at which the page module was loaded. */
  function Note1(loadedAt: int): (r: Note)
    ensures Starred(r) && !Shared(r)
    ensures FormatDate(loadedAt, r.lastModified) == HoursAgo(2)
  {
    Note("1", "Machine Learning Fundamentals", Content1, ["ML", "AI", "Study"],
         loadedAt - 2 * MsPerHour, None, Some(true), Some(3), Some(Blue))
  }

  function Note2(loadedAt: int): (r: Note)
    ensures Shared(r) && !Starred(r)
    ensures FormatDate(loadedAt, r.lastModified) == HoursAgo(5)
  {
    Note("2", "React Best Practices", Content2, ["React", "Frontend", "JavaScript"],
         loadedAt - 5 * MsPerHour, Some(true), None, Some(2), Some(Green))
  }

  function Note3(loadedAt: int): (r: Note)
    ensures !Shared(r) && !Starred(r)
    ensures FormatDate(loadedAt, r.lastModified) == Yesterday
  {
    Note("3", "Project Planning Meeting Notes", Content3, ["Meeting", "Planning", "Work"],
         loadedAt - 24 * MsPerHour, None, None, None, Some(Yellow))
  }

  function Note4(loadedAt: int): (r: Note)
    ensures Starred(r) && !Shared(r)
    ensures FormatDate(loadedAt, r.lastModified) == AbsoluteDate(r.lastModified)
  {
    Note("4", "Data Structures & Algorithms", Content4, ["DSA", "Programming", "Study"],
         loadedAt - 3 * 24 * MsPerHour, None, Some(true), None, Some(Purple))
  }

  function Note5(loadedAt: int): (r: Note)
    ensures Shared(r) && !Starred(r)
    ensures FormatDate(loadedAt, r.lastModified) == AbsoluteDate(r.lastModified)
  {
    Note("5", "UX Design Principles", Content5, ["Design", "UX", "UI"],
         loadedAt - 7 * 24 * MsPerHour, Some(true), None, Some(5), Some(Pink))
  }

  /** mockNotes. */
  function MockNotes(loadedAt: int): (r: seq<Note>)
    ensures |r| == 5
    ensures forall i, j :: 0 <= i < j < |r| ==> r[i].id != r[j].id
  {
    [Note1(loadedAt), Note2(loadedAt), Note3(loadedAt), Note4(loadedAt), Note5(loadedAt)]
  }

  /** Filter over a list of five, written out. */
  lemma FilterFive<T>(a: T, b: T, c: T, d: T, e: T, p: T -> bool)
    ensures Filter([a, b, c, d, e], p) ==
            Keep(a, p) + (Keep(b, p) + (Keep(c, p) + (Keep(d, p) + Keep(e, p))))
  {
    FilterCons(e, [], p);
    assert [e] + [] == [e];
    FilterCons(d, [e], p);
    assert [d] + [e] == [d, e];
    FilterCons(c, [d, e], p);
    assert [c] + [d, e] == [c, d, e];
    FilterCons(b, [c, d, e], p);
    assert [b] + [c, d, e] == [b, c, d, e];
    FilterCons(a, [b, c, d, e], p);
    assert [a] + [b, c, d, e] == [a, b, c, d, e];
  }

  /** The mock notes the "Shared with me" section lists: "2" and "5". */
  lemma MockSharedNotes(loadedAt: int)
    ensures Filter(MockNotes(loadedAt), Shared) == [Note2(loadedAt), Note5(loadedAt)]
  {
    FilterFive(Note1(loadedAt), Note2(loadedAt), Note3(loadedAt), Note4(loadedAt), Note5(loadedAt), Shared);
  }

  /** The mock notes the "Starred" section lists: "1" and "4". */
  lemma MockStarredNotes(loadedAt: int)
    ensures Filter(MockNotes(loadedAt), Starred) == [Note1(loadedAt), Note4(loadedAt)]
  {
    FilterFive(Note1(loadedAt), Note2(loadedAt), Note3(loadedAt), Note4(loadedAt), Note5(loadedAt), Starred);
  }

  /** The dashboard's counts for the mock notes: 5 notes, 2 shared, 2 starred. */
  lemma MockStats(loadedAt: int)
    ensures Stats(MockNotes(loadedAt)) == NoteStats(5, 2, 2)
  {
    MockSharedNotes(loadedAt);
    MockStarredNotes(loadedAt);
  }

  /** A text in which the digit 4 does not occur cannot contain the query "Q4". */
  lemma NoFourNoMatch(s: string)
    requires Lacks(s, '4')
    ensures !IsSubstring(Lower("Q4"), Lower(s))
  {
    if IsSubstring(Lower("Q4"), Lower(s)) {
      assert Lower("Q4")[1] == '4';
      SubstringChars(Lower("Q4"), Lower(s), '4');
      LowerKeepsNonLetters(s, '4');
    }
  }

  lemma NoteWithoutFour(n: Note)
    requires Lacks(n.title, '4') && Lacks(n.content, '4')
    requires forall k :: 0 <= k < |n.tags| ==> Lacks(n.tags[k], '4')
    ensures !Matches(n, "Q4")
  {
    NoFourNoMatch(n.title);
    NoFourNoMatch(n.content);
    forall k | 0 <= k < |n.tags| ensures !IsSubstring(Lower("Q4"), Lower(n.tags[k])) {
      NoFourNoMatch(n.tags[k]);
    }
  }

  lemma TagsLackFour(tags: seq<string>)
    requires forall k :: 0 <= k < |tags| ==> '4' !in tags[k]
    ensures forall k :: 0 <= k < |tags| ==> Lacks(tags[k], '4')
  {
  }

  /** Notes "1", "2", "4" and "5" contain no digit 4 anywhere. */
  lemma ContentLacksFour1()
    ensures Lacks(Content1, '4')
  {
    assert Lacks("Introduction to ", '4');
    assert Lacks("supervised and ", '4');
    LacksConcat("Introduction to ", "supervised and ", '4');
    assert Lacks("unsupervised ", '4');
    LacksConcat("Introduction to " + "supervised and ", "unsupervised ", '4');
    assert Lacks("learning ", '4');
    LacksConcat("Introduction to " + "supervised and " + "unsupervised ", "learning ", '4');
    assert Lacks("algorithms. Key ", '4');
    LacksConcat("Introduction to " + "supervised and " + "unsupervised " + "learning ", "algorithms. Key ", '4');
    assert Lacks("concepts include ", '4');
    LacksConcat("Introduction to " + "supervised and " + "unsupervised " + "learning " + "algorithms. Key ", "concepts include ", '4');
    assert Lacks("linear ", '4');
    LacksConcat("Introduction to " + "supervised and " + "unsupervised " + "learning " + "algorithms. Key " + "concepts include ", "linear ", '4');
    assert Lacks("regression, ", '4');
    LacksConcat("Introduction to " + "supervised and " + "unsupervised " + "learning " + "algorithms. Key " + "concepts include " + "linear ", "regression, ", '4');
    assert Lacks("decision trees, ", '4');
    LacksConcat("Introduction to " + "supervised and " + "unsupervised " + "learning " + "algorithms. Key " + "concepts include " + "linear " + "regression, ", "decision trees, ", '4');
    assert Lacks("neural networks...", '4');
    LacksConcat("Introduction to " + "supervised and " + "unsupervised " + "learning " + "algorithms. Key " + "concepts include " + "linear " + "regression, " + "decision trees, ", "neural networks...", '4');
  }

  lemma Note1LacksQ4(loadedAt: int)
    ensures !Matches(Note1(loadedAt), "Q4")
  {
    ContentLacksFour1();
    assert Lacks("Machine Learning Fundamentals", '4');
    TagsLackFour(["ML", "AI", "Study"]);
    NoteWithoutFour(Note1(loadedAt));
  }

  lemma ContentLacksFour2()
    ensures Lacks(Content2, '4')
  {
    assert Lacks("Component ", '4');
    assert Lacks("composition, ", '4');
    LacksConcat("Component ", "composition, ", '4');
    assert Lacks("state management ", '4');
    LacksConcat("Component " + "composition, ", "state management ", '4');
    assert Lacks("with hooks, ", '4');
    LacksConcat("Component " + "composition, " + "state management ", "with hooks, ", '4');
    assert Lacks("performance ", '4');
    LacksConcat("Component " + "composition, " + "state management " + "with hooks, ", "performance ", '4');
    assert Lacks("optimization ", '4');
    LacksConcat("Component " + "composition, " + "state management " + "with hooks, " + "performance ", "optimization ", '4');
    assert Lacks("techniques, and ", '4');
    LacksConcat("Component " + "composition, " + "state management " + "with hooks, " + "performance " + "optimization ", "techniques, and ", '4');
    assert Lacks("testing ", '4');
    LacksConcat("Component " + "composition, " + "state management " + "with hooks, " + "performance " + "optimization " + "techniques, and ", "testing ", '4');
    assert Lacks("strategies...", '4');
    LacksConcat("Component " + "composition, " + "state management " + "with hooks, " + "performance " + "optimization " + "techniques, and " + "testing ", "strategies...", '4');
  }

  lemma Note2LacksQ4(loadedAt: int)
    ensures !Matches(Note2(loadedAt), "Q4")
  {
    ContentLacksFour2();
    assert Lacks("React Best Practices", '4');
    TagsLackFour(["React", "Frontend", "JavaScript"]);
    NoteWithoutFour(Note2(loadedAt));
  }

  lemma ContentLacksFour4()
    ensures Lacks(Content4, '4')
  {
    assert Lacks("Comprehensive ", '4');
    assert Lacks("study guide ", '4');
    LacksConcat("Comprehensive ", "study guide ", '4');
    assert Lacks("covering arrays, ", '4');
    LacksConcat("Comprehensive " + "study guide ", "covering arrays, ", '4');
    assert Lacks("linked lists, ", '4');
    LacksConcat("Comprehensive " + "study guide " + "covering arrays, ", "linked lists, ", '4');
    assert Lacks("trees, graphs, ", '4');
    LacksConcat("Comprehensive " + "study guide " + "covering arrays, " + "linked lists, ", "trees, graphs, ", '4');
    assert Lacks("sorting ", '4');
    LacksConcat("Comprehensive " + "study guide " + "covering arrays, " + "linked lists, " + "trees, graphs, ", "sorting ", '4');
    assert Lacks("algorithms, and ", '4');
    LacksConcat("Comprehensive " + "study guide " + "covering arrays, " + "linked lists, " + "trees, graphs, " + "sorting ", "algorithms, and ", '4');
    assert Lacks("time complexity ", '4');
    LacksConcat("Comprehensive " + "study guide " + "covering arrays, " + "linked lists, " + "trees, graphs, " + "sorting " + "algorithms, and ", "time complexity ", '4');
    assert Lacks("analysis...", '4');
    LacksConcat("Comprehensive " + "study guide " + "covering arrays, " + "linked lists, " + "trees, graphs, " + "sorting " + "algorithms, and " + "time complexity ", "analysis...", '4');
  }

  lemma Note4LacksQ4(loadedAt: int)
    ensures !Matches(Note4(loadedAt), "Q4")
  {
    ContentLacksFour4();
    assert Lacks("Data Structures & Algorithms", '4');
    TagsLackFour(["DSA", "Programming", "Study"]);
    NoteWithoutFour(Note4(loadedAt));
  }

  lemma ContentLacksFour5()
    ensures Lacks(Content5, '4')
  {
    assert Lacks("User-centered ", '4');
    assert Lacks("design approach, ", '4');
    LacksConcat("User-centered ", "design approach, ", '4');
    assert Lacks("accessibility ", '4');
    LacksConcat("User-centered " + "design approach, ", "accessibility ", '4');
    assert Lacks("guidelines, color ", '4');
    LacksConcat("User-centered " + "design approach, " + "accessibility ", "guidelines, color ", '4');
    assert Lacks("theory, ", '4');
    LacksConcat("User-centered " + "design approach, " + "accessibility " + "guidelines, color ", "theory, ", '4');
    assert Lacks("typography, and ", '4');
    LacksConcat("User-centered " + "design approach, " + "accessibility " + "guidelines, color " + "theory, ", "typography, and ", '4');
    assert Lacks("responsive design ", '4');
    LacksConcat("User-centered " + "design approach, " + "accessibility " + "guidelines, color " + "theory, " + "typography, and ", "responsive design ", '4');
    assert Lacks("patterns...", '4');
    LacksConcat("User-centered " + "design approach, " + "accessibility " + "guidelines, color " + "theory, " + "typography, and " + "responsive design ", "patterns...", '4');
  }

  lemma Note5LacksQ4(loadedAt: int)
    ensures !Matches(Note5(loadedAt), "Q4")
  {
    ContentLacksFour5();
    assert Lacks("UX Design Principles", '4');
    TagsLackFour(["Design", "UX", "UI"]);
    NoteWithoutFour(Note5(loadedAt));
  }

  /** Note "3" mentions "Q4" in its content. */
  lemma Note3HasQ4(loadedAt: int)
    ensures Matches(Note3(loadedAt), "Q4")
  {
    LowerConcat(Content3Head, Content3Tail);
    assert Lower("Q4") == "q4";
    assert IsPrefix("q4", Lower(Content3Tail)[0..]);
    SubstringInRight("q4", Lower(Content3Head), Lower(Content3Tail));
  }

  /** "Q4" occurs only in the content of note "3", so that is all the search finds. */
  lemma MockSearchQ4(loadedAt: int)
    ensures FilteredNotes(MockNotes(loadedAt), "my-notes", "Q4") == [Note3(loadedAt)]
  {
    Note1LacksQ4(loadedAt);
    Note2LacksQ4(loadedAt);
    Note4LacksQ4(loadedAt);
    Note5LacksQ4(loadedAt);
    Note3HasQ4(loadedAt);
    FilterFive(Note1(loadedAt), Note2(loadedAt), Note3(loadedAt), Note4(loadedAt), Note5(loadedAt),
               n => Visible(n, "my-notes", "Q4"));
  }

  /** Searching in the starred section for "Q4", which only the unstarred note "3"
      contains, finds nothing, and the page offers to adjust the search. */
  lemma MockStarredQ4IsEmpty(loadedAt: int)
    ensures FilteredNotes(MockNotes(loadedAt), StarredSection, "Q4") == []
    ensures EmptyStateFor(FilteredNotes(MockNotes(loadedAt), StarredSection, "Q4"), "Q4") ==
            Shown("Try adjusting your search terms", false)
  {
    var ns := MockNotes(loadedAt);
    MockSearchQ4(loadedAt);
    forall n | n in ns && Matches(n, "Q4") ensures !Starred(n) {
      FilteredMembership(ns, "my-notes", "Q4", n);
    }
    StarredMismatchIsEmpty(ns, "Q4");
  }

  /** The search is case-insensitive: "REACT" finds "React Best Practices". */
  lemma MockSearchReact(loadedAt: int)
    ensures MockNotes(loadedAt)[1] in FilteredNotes(MockNotes(loadedAt), "my-notes", "REACT")
  {
    var n := MockNotes(loadedAt)[1];
    assert Lower("REACT") == "react";
    assert IsPrefix("react", Lower(n.title)[0..]);
    FilteredMembership(MockNotes(loadedAt), "my-notes", "REACT", n);
  }

  /** Right after loading, the cards read "2h ago", "5h ago", "Yesterday" and two absolute dates. */
  lemma MockDateLabels(loadedAt: int, now: int)
    requires loadedAt <= now < loadedAt + MsPerHour
    ensures var ns := MockNotes(loadedAt);
            FormatDate(now, ns[0].lastModified) == HoursAgo(2) &&
            FormatDate(now, ns[1].lastModified) == HoursAgo(5) &&
            FormatDate(now, ns[2].lastModified) == Yesterday &&
            FormatDate(now, ns[3].lastModified).AbsoluteDate? &&
            FormatDate(now, ns[4].lastModified).AbsoluteDate?
  {
  }

  /** Opening the dashboard on the mock notes: "My Notes", every note, in order. */
  method OpenDashboard(loadedAt: int) returns (page: Page)
    ensures fresh(page) && page.notes == MockNotes(loadedAt)
    ensures page.View().title == "My Notes" && page.View().cards == MockNotes(loadedAt)
    ensures page.View().stats == NoteStats(5, 2, 2)
  {
    page := new Page(MockNotes(loadedAt));
    OtherSectionShowsAll(page.notes, page.activeSection);
    MockStats(loadedAt);
  }

  /** Typing "Q4" in the search box narrows the fresh dashboard to note "3". */
  method SearchDashboard(loadedAt: int)
  {
    var page := new Page(MockNotes(loadedAt));
    page.SetSearchQuery("Q4");
    var v := page.View();
    MockSearchQ4(loadedAt);
    assert v.cards == [Note3(loadedAt)] && v.emptyState == Hidden;
  }

  /** Switching to "Starred" with "Q4" still typed shows the search-miss empty state. */
  method StarredSearchDashboard(loadedAt: int)
  {
    var page := new Page(MockNotes(loadedAt));
    page.SetSearchQuery("Q4");
    page.ChangeSection(StarredSection);
    var v := page.View();
    MockStarredQ4IsEmpty(loadedAt);
    assert v.cards == [];
    assert v.title == "Starred Notes";
    assert v.emptyState == Shown("Try adjusting your search terms", false);
  }

  /** Closing the sidebar in the middle of a search keeps the query and the section. */
  method SidebarKeepsSearch(loadedAt: int)
  {
    var page := new Page(MockNotes(loadedAt));
    page.SetSearchQuery("Q4");
    page.ChangeSection(StarredSection);
    page.ToggleSidebar();
    assert !page.sidebarOpen && page.searchQuery == "Q4" && page.activeSection == StarredSection;
  }
}
