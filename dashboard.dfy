/** The dashboard page: which notes it shows for the active section and search
    query, the note counts it hands to the sidebar, the heading, the empty state,
    and the view state it owns. */
module Dashboard {
  import opened Seqs
  import opened Text
  import opened Notes
  import NoteCard

  const SharedSection := "shared-notes"
  const StarredSection := "starred"

  /** The section half of getFilteredNotes: only the shared and starred sections
      look at a note's flags; every other section id admits every note. */
  predicate InSection(n: Note, section: string)
    ensures section == SharedSection ==> (InSection(n, section) <==> Shared(n))
    ensures section == StarredSection ==> (InSection(n, section) <==> Starred(n))
    ensures section != SharedSection && section != StarredSection ==> InSection(n, section)
  {
    (section == SharedSection ==> Shared(n)) && (section == StarredSection ==> Starred(n))
  }

  /** The search half: the lower-cased query occurs in the lower-cased title,
      the lower-cased content, or some lower-cased tag. */
  predicate Matches(n: Note, query: string)
    ensures Matches(n, query) ==>
            |query| <= |n.title| || |query| <= |n.content| ||
            exists k :: 0 <= k < |n.tags| && |query| <= |n.tags[k]|
  {
    var q := Lower(query);
    IsSubstring(q, Lower(n.title)) || IsSubstring(q, Lower(n.content)) ||
    exists k :: 0 <= k < |n.tags| && IsSubstring(q, Lower(n.tags[k]))
  }

  /** A note is displayed when it passes both halves (they are combined by AND). */
  predicate Visible(n: Note, section: string, query: string)
    ensures query == "" ==> (Visible(n, section, query) <==> InSection(n, section))
  {
    EmptyQueryMatches(n);
    InSection(n, section) && Matches(n, query)
  }

  /** An empty query matches every note, so skipping the search when the query
      is empty changes nothing. */
  lemma EmptyQueryMatches(n: Note)
    ensures Matches(n, "")
  {
    EmptyIsSubstring(Lower(n.title));
  }

  /** The section step: an if/else-if over the section id. */
  function SectionFiltered(notes: seq<Note>, section: string): (r: seq<Note>)
    ensures r == Filter(notes, n => InSection(n, section))
  {
    if section == SharedSection then
      FilterCongruent(notes, Shared, n => InSection(n, section));
      Filter(notes, Shared)
    else if section == StarredSection then
      FilterCongruent(notes, Starred, n => InSection(n, section));
      Filter(notes, Starred)
    else
      FilterAllPass(notes, n => InSection(n, section));
      notes
  }

  /** The search step, applied only when the query is non-empty. */
  function SearchFiltered(notes: seq<Note>, query: string): (r: seq<Note>)
    ensures r == Filter(notes, n => Matches(n, query))
  {
    if query != "" then
      Filter(notes, n => Matches(n, query))
    else
      forall i | 0 <= i < |notes| ensures Matches(notes[i], query) {
        EmptyQueryMatches(notes[i]);
      }
      FilterAllPass(notes, n => Matches(n, query));
      notes
  }

  /** getFilteredNotes: the section step followed by the search step. The result
      is one filter of the full list by the conjunction of the two conditions. */
  function FilteredNotes(notes: seq<Note>, section: string, query: string): (r: seq<Note>)
    ensures r == Filter(notes, n => Visible(n, section, query))
  {
    var bySection := SectionFiltered(notes, section);
    FilterFilter(notes, n => InSection(n, section), n => Matches(n, query),
                 n => Visible(n, section, query));
    SearchFiltered(bySection, query)
  }

  /** Filtering never adds or reorders notes. */
  lemma FilteredIsSubsequence(notes: seq<Note>, section: string, query: string)
    ensures IsSubsequence(FilteredNotes(notes, section, query), notes)
  {
    FilterIsSubsequence(notes, n => Visible(n, section, query));
  }

  /** Soundness and completeness of the displayed list, in one statement. */
  lemma FilteredMembership(notes: seq<Note>, section: string, query: string, n: Note)
    ensures n in FilteredNotes(notes, section, query) <==>
            n in notes && InSection(n, section) && Matches(n, query)
  {
    if n in notes && InSection(n, section) && Matches(n, query) {
      FilterComplete(notes, n => Visible(n, section, query), n);
    }
  }

  /** Each displayed note appears as often as in the input; hidden notes not at all. */
  lemma FilteredMultiplicity(notes: seq<Note>, section: string, query: string, n: Note)
    ensures multiset(FilteredNotes(notes, section, query))[n] ==
            if Visible(n, section, query) then multiset(notes)[n] else 0
  {
    FilterMultiset(notes, n => Visible(n, section, query), n);
  }

  /** The "shared-notes" section shows shared notes only, and every shared note matching the query. */
  lemma SharedSectionExact(notes: seq<Note>, query: string)
    ensures forall n :: n in FilteredNotes(notes, SharedSection, query) ==> Shared(n)
    ensures forall n :: n in notes && Shared(n) && Matches(n, query) ==>
                        n in FilteredNotes(notes, SharedSection, query)
  {
    forall n | n in notes && Shared(n) && Matches(n, query)
      ensures n in FilteredNotes(notes, SharedSection, query)
    {
      FilteredMembership(notes, SharedSection, query, n);
    }
  }

  /** The "starred" section shows starred notes only, and every starred note matching the query. */
  lemma StarredSectionExact(notes: seq<Note>, query: string)
    ensures forall n :: n in FilteredNotes(notes, StarredSection, query) ==> Starred(n)
    ensures forall n :: n in notes && Starred(n) && Matches(n, query) ==>
                        n in FilteredNotes(notes, StarredSection, query)
  {
    forall n | n in notes && Starred(n) && Matches(n, query)
      ensures n in FilteredNotes(notes, StarredSection, query)
    {
      FilteredMembership(notes, StarredSection, query, n);
    }
  }

  /** Any other section id applies no section filter: with an empty query every note is shown. */
  lemma OtherSectionShowsAll(notes: seq<Note>, section: string)
    requires section != SharedSection && section != StarredSection
    ensures FilteredNotes(notes, section, "") == notes
  {
    forall i | 0 <= i < |notes| ensures Visible(notes[i], section, "") {
      EmptyQueryMatches(notes[i]);
    }
    FilterAllPass(notes, n => Visible(n, section, ""));
  }

  /** Changing the letter case of the query changes neither the match nor the displayed list. */
  lemma MatchesIgnoresCase(n: Note, q1: string, q2: string)
    requires SameUpToCase(q1, q2)
    ensures Matches(n, q1) == Matches(n, q2)
  {
    SameUpToCaseLower(q1, q2);
  }

  /** Lower-casing the query first changes nothing: the search lower-cases it anyway. */
  lemma MatchesLoweredQuery(n: Note, query: string)
    ensures Matches(n, Lower(query)) == Matches(n, query)
  {
    LowerIdempotent(query);
  }

  lemma FilteredIgnoresCase(notes: seq<Note>, section: string, q1: string, q2: string)
    requires SameUpToCase(q1, q2)
    ensures FilteredNotes(notes, section, q1) == FilteredNotes(notes, section, q2)
  {
    forall i | 0 <= i < |notes|
      ensures Visible(notes[i], section, q1) == Visible(notes[i], section, q2)
    {
      MatchesIgnoresCase(notes[i], q1, q2);
    }
    FilterCongruent(notes, n => Visible(n, section, q1), n => Visible(n, section, q2));
  }

  /** The upper-cased query finds exactly what the query finds. */
  lemma UpperCaseQuery(notes: seq<Note>, section: string, query: string)
    ensures FilteredNotes(notes, section, Upper(query)) == FilteredNotes(notes, section, query)
  {
    UpperSameUpToCase(query);
    FilteredIgnoresCase(notes, section, Upper(query), query);
  }

  /** The counts handed to the sidebar. */
  datatype NoteStats = NoteStats(total: nat, shared: nat, starred: nat)

  /** noteStats: the number of notes, of shared notes and of starred notes. */
  function Stats(notes: seq<Note>): (r: NoteStats)
    ensures r.total == |notes|
    ensures r.shared == |IndicesWhere(notes, Shared)|
    ensures r.starred == |IndicesWhere(notes, Starred)|
    ensures r.shared <= r.total && r.starred <= r.total
  {
    FilterLength(notes, Shared);
    FilterLength(notes, Starred);
    NoteStats(|notes|, |Filter(notes, Shared)|, |Filter(notes, Starred)|)
  }

  /** The sidebar's shared and starred counts are the numbers of cards those
      sections show while the search box is empty. */
  lemma StatsMatchSections(notes: seq<Note>)
    ensures Stats(notes).shared == |FilteredNotes(notes, SharedSection, "")|
    ensures Stats(notes).starred == |FilteredNotes(notes, StarredSection, "")|
  {
    forall i | 0 <= i < |notes|
      ensures Shared(notes[i]) == Visible(notes[i], SharedSection, "")
      ensures Starred(notes[i]) == Visible(notes[i], StarredSection, "")
    {
      EmptyQueryMatches(notes[i]);
    }
    FilterCongruent(notes, Shared, n => Visible(n, SharedSection, ""));
    FilterCongruent(notes, Starred, n => Visible(n, StarredSection, ""));
  }

  /** The headings of the known section ids. */
  const Headings: map<string, string> := map[
    "dashboard" := "Dashboard",
    "my-notes" := "My Notes",
    SharedSection := "Shared Notes",
    StarredSection := "Starred Notes",
    "tags" := "Tags"]

  /** getSectionTitle: the heading of a known section id, "My Notes" for any other. */
  function SectionTitle(section: string): (r: string)
    ensures section in Headings ==> r == Headings[section]
    ensures section !in Headings ==> r == "My Notes"
  {
    match section
    case "dashboard" => "Dashboard"
    case "my-notes" => "My Notes"
    case "shared-notes" => "Shared Notes"
    case "starred" => "Starred Notes"
    case "tags" => "Tags"
    case _ => "My Notes"
  }

  /** The heading names the section filter that is in force, and a heading of
      "My Notes" never hides a note because of its flags. */
  lemma TitleNamesFilter(section: string)
    ensures SectionTitle(section) == "Shared Notes" <==> section == SharedSection
    ensures SectionTitle(section) == "Starred Notes" <==> section == StarredSection
    ensures SectionTitle(section) == "My Notes" ==> forall n :: InSection(n, section)
  {
  }

  /** What is drawn below the list: nothing, or the "No notes found" panel. */
  datatype EmptyState = Hidden | Shown(message: string, createButton: bool)

  /** The empty-state branch of the page for the displayed list `visible`. */
  function EmptyStateFor(visible: seq<Note>, query: string): (r: EmptyState)
    ensures r.Shown? <==> |visible| == 0
    ensures r.Shown? ==> (r.createButton <==> query == "")
    ensures r.Shown? && query == "" ==> r.message == "Start creating your first note!"
    ensures r.Shown? && query != "" ==> r.message == "Try adjusting your search terms"
  {
    if |visible| != 0 then Hidden
    else if query != "" then Shown("Try adjusting your search terms", false)
    else Shown("Start creating your first note!", true)
  }

  /** A query that only non-starred notes match leaves the starred section empty:
      the empty state appears, without the create button. */
  lemma StarredMismatchIsEmpty(notes: seq<Note>, query: string)
    requires query != ""
    requires forall n :: n in notes && Matches(n, query) ==> !Starred(n)
    ensures FilteredNotes(notes, StarredSection, query) == []
    ensures EmptyStateFor(FilteredNotes(notes, StarredSection, query), query) == Shown("Try adjusting your search terms", false)
  {
    FilterNonePass(notes, n => Visible(n, StarredSection, query));
  }

  /** Every card the "Shared Notes" section shows carries the Shared label, and
      every card of the "Starred Notes" section the star icon and an "Unstar" item. */
  lemma SectionCardsShowTheirFlag(notes: seq<Note>, query: string, now: int)
    ensures forall n :: n in FilteredNotes(notes, SharedSection, query) ==>
                        NoteCard.Render(n, now).sharedLabel
    ensures forall n :: n in FilteredNotes(notes, StarredSection, query) ==>
                        NoteCard.Render(n, now).starIcon && NoteCard.Render(n, now).starMenuLabel == "Unstar"
  {
    SharedSectionExact(notes, query);
    StarredSectionExact(notes, query);
  }

  datatype ViewMode = Grid | List

  /** Everything the page derives from its state on a render. */
  datatype PageView = PageView(
    title: string,
    stats: NoteStats,
    cards: seq<Note>,
    emptyState: EmptyState,
    layout: ViewMode)

  /** The dashboard's view state, reinitialised on every load. */
  class Page {
    const notes: seq<Note>
    var sidebarOpen: bool
    var activeSection: string
    var viewMode: ViewMode
    var searchQuery: string

    constructor (notes: seq<Note>)
      ensures this.notes == notes
      ensures sidebarOpen && activeSection == "my-notes" && viewMode == Grid && searchQuery == ""
    {
      this.notes := notes;
      sidebarOpen := true;
      activeSection := "my-notes";
      viewMode := Grid;
      searchQuery := "";
    }

    /** The navbar's menu button. */
    method ToggleSidebar()
      modifies this`sidebarOpen
      ensures sidebarOpen == !old(sidebarOpen)
    {
      sidebarOpen := !sidebarOpen;
    }

    /** The sidebar's section change callback. */
    method ChangeSection(section: string)
      modifies this`activeSection
      ensures activeSection == section
    {
      activeSection := section;
    }

    /** The grid and list buttons. */
    method SetViewMode(mode: ViewMode)
      modifies this`viewMode
      ensures viewMode == mode
    {
      viewMode := mode;
    }

    /** The search input's change handler. */
    method SetSearchQuery(query: string)
      modifies this`searchQuery
      ensures searchQuery == query
    {
      searchQuery := query;
    }

    /** One render of the page from the current state. */
    function View(): (v: PageView)
      reads this
      ensures v.title == SectionTitle(activeSection)
      ensures v.stats == Stats(notes)
      ensures IsSubsequence(v.cards, notes)
      ensures forall n :: n in v.cards <==> n in notes && Visible(n, activeSection, searchQuery)
      ensures v.emptyState.Shown? <==> v.cards == []
      ensures v.emptyState.Shown? ==> (v.emptyState.createButton <==> searchQuery == "")
      ensures v.layout == viewMode
      ensures v.cards == FilteredNotes(notes, activeSection, searchQuery)
      ensures v.emptyState == EmptyStateFor(v.cards, searchQuery)
    {
      var cards := FilteredNotes(notes, activeSection, searchQuery);
      FilteredIsSubsequence(notes, activeSection, searchQuery);
      forall n ensures n in cards <==> n in notes && Visible(n, activeSection, searchQuery) {
        FilteredMembership(notes, activeSection, searchQuery, n);
      }
      PageView(SectionTitle(activeSection), Stats(notes), cards, EmptyStateFor(cards, searchQuery), viewMode)
    }
  }
}
