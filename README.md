# A note-taking dashboard, modelled in Dafny

This project models the core of a note-taking web app's front end: the
dashboard page, the note card it renders for each note, and the floating
action button in the corner.

- **Dashboard** (`dashboard.dfy`). It decides which notes to show.
  - The active section filters by the shared or starred flag.
  - A case-insensitive search then matches the title, the content or any tag.
  - It counts the total, shared and starred notes for the sidebar, picks the
    heading for the section, and decides the empty-state panel.
  - It owns four pieces of view state: sidebar open, active section, grid or
    list, and the search text. Class `Page` holds them and has one method per
    setter; `Page.View` is one render of that state.
  - **Mock data** (`mock_data.dfy`). The page's five hard-coded notes are
    `Note1` to `Note5`, and `MockNotes` lists them. Their times are offsets from
    the moment the page module was loaded. Lemmas state what the page shows for
    them: the counts, what each section lists, and what the searches "Q4" and
    "REACT" find. After them come scripted sessions on a `Page`.
- **Note card** (`note_card.dfy`).
  - The relative date label: "Just now", "{h}h ago", "Yesterday" or a
    locale date.
  - The tag row: at most three tags and a "+N" badge.
  - Prop defaults, the title and content fallbacks, and which labels the shared
    and starred flags switch on.
  - The action menu. Class `Card` holds `showMenu` and a log of the callbacks
    fired.
- **Floating action button** (`floating_action_button.dfy`). A table of four
  actions and an `isExpanded` flag. The main button toggles the flag; an
  action button fires its callback and collapses the menu. Class `Fab` holds
  the state.

Shared pieces:

- `seqs.dfy` has `Filter` (Array.prototype.filter) and its laws.
- `text.dfy` has ASCII case folding and substring search
  (String.prototype.toLowerCase and includes).
- `notes.dfy` has the note record. Optional fields are `Option`s, and a missing
  flag is falsy.
- `callbacks.dfy` has `Invoke`, an optional callback prop that fires only when
  the parent supplied it.

Each class's methods are specified against a pure step function of the old
state: `CardStep` for `Card`, `Step` for `Fab`. Lemmas about sequences of
clicks are proved on those step functions.

## Model

| member | source | states |
|---|---|---|
| `Seqs.Filter` | src/pages/Dashboard.tsx:95-105 | Array.prototype.filter: the result is no longer than the input, and everything in it comes from the input and passes the predicate |
| `Seqs.FilterIsSubsequence` | src/pages/Dashboard.tsx:95-105 | filtering only deletes elements; it never adds or reorders them |
| `Seqs.FilterComplete` | src/pages/Dashboard.tsx:95-105 | every element that passes the predicate survives the filter |
| `Seqs.FilterMultiset` | src/pages/Dashboard.tsx:95-105 | each passing value keeps all of its copies, and each failing value keeps none |
| `Seqs.FilterFilter` | src/pages/Dashboard.tsx:92-106 | two filters in a row are one filter by the conjunction of their predicates |
| `Seqs.FilterConcat` | src/pages/Dashboard.tsx:95-105 | filtering distributes over concatenation |
| `Seqs.FilterLength` | src/pages/Dashboard.tsx:76-77 | `filter(...).length` is the number of positions whose element passes |
| `Seqs.FilterAllPass` | src/pages/Dashboard.tsx:92-98 | a predicate that every element passes leaves the list unchanged |
| `Seqs.FilterNonePass` | src/pages/Dashboard.tsx:92-106 | a predicate that no element passes leaves the empty list |
| `Seqs.FilterCongruent` | src/pages/Dashboard.tsx:94-98 | predicates that agree on the list's elements filter it alike |
| `Text.LowerChar` | src/pages/Dashboard.tsx:102-104 | toLowerCase on one character: an upper-case ASCII letter becomes its lower-case letter, and any other character is unchanged |
| `Text.Lower` | src/pages/Dashboard.tsx:102-104 | toLowerCase keeps the length and folds each character |
| `Text.SameUpToCaseLower` | src/pages/Dashboard.tsx:102-104 | two strings lower-case to the same string if and only if they agree up to letter case |
| `Text.LowerConcat` | src/pages/Dashboard.tsx:102-104 | lower-casing distributes over concatenation |
| `Text.LowerKeepsNonLetters` | src/pages/Dashboard.tsx:102-104 | a character other than a lower-case letter occurs in the lower-cased string only if it occurs in the original |
| `Text.EmptyIsSubstring` | src/pages/Dashboard.tsx:100-105 | `includes("")` holds of every string |
| `Text.LowerIdempotent` | src/pages/Dashboard.tsx:101-104 | `toLowerCase` applied twice gives what it gives once |
| `Text.IsSubstring` | src/pages/Dashboard.tsx:102-104 | `includes`: the string occurs at some position; an included string is never longer than the string that includes it |
| `Text.SubstringChars` | src/pages/Dashboard.tsx:102-104 | every character of an included string is a character of the string that includes it |
| `Text.SubstringInRight` | src/pages/Dashboard.tsx:102-104 | a string included in `b` is included in `a + b` |
| `Notes.Truthy` | src/pages/Dashboard.tsx:76-77 | a flag read as a JavaScript condition: a missing flag (`undefined`) and `false` are both falsy; only `true` is truthy |
| `Notes.Shared` | src/pages/Dashboard.tsx:95 | `note.isShared` as a condition of the filter and of the count: a missing flag is not shared, `true` is |
| `Notes.Starred` | src/pages/Dashboard.tsx:97 | `note.isStarred` as a condition of the filter and of the count: a missing flag is not starred, `true` is |
| `Dashboard.InSection` | src/pages/Dashboard.tsx:94-97 | the section condition: in "shared-notes" a note passes exactly when it is shared, in "starred" exactly when it is starred, and in any other section always |
| `Dashboard.Matches` | src/pages/Dashboard.tsx:101-105 | the search condition: the lower-cased query is included in the lower-cased title, the lower-cased content, or some lower-cased tag; so a query longer than each of them matches nothing |
| `Dashboard.Visible` | src/pages/Dashboard.tsx:94-105 | the two conditions combined by AND; with an empty query only the section decides |
| `Dashboard.MatchesLoweredQuery` | src/pages/Dashboard.tsx:101-105 | lower-casing the query before searching changes nothing, since the search lower-cases it itself |
| `Dashboard.EmptyQueryMatches` | src/pages/Dashboard.tsx:100-105 | an empty query matches every note, so skipping the search step when the query is empty loses nothing |
| `Dashboard.SectionFiltered` | src/pages/Dashboard.tsx:94-98 | the section's if/else-if is one filter by "shared when the section is shared-notes, starred when it is starred" |
| `Dashboard.SearchFiltered` | src/pages/Dashboard.tsx:100-106 | the search step, which is skipped for an empty query, is one filter by the title/content/tag match |
| `Dashboard.FilteredNotes` | src/pages/Dashboard.tsx:91-109 | getFilteredNotes is a single filter of the notes by "in the section and matches the query" |
| `Dashboard.FilteredIsSubsequence` | src/pages/Dashboard.tsx:91-109 | the displayed list keeps the notes' original order and adds nothing |
| `Dashboard.FilteredMembership` | src/pages/Dashboard.tsx:91-109 | a note is displayed if and only if it is in the list, in the section, and matches the query |
| `Dashboard.FilteredMultiplicity` | src/pages/Dashboard.tsx:91-109 | a displayed note appears as often as in the input list; a hidden note not at all |
| `Dashboard.SharedSectionExact` | src/pages/Dashboard.tsx:94-95 | "shared-notes" shows only shared notes, and every shared note that matches the query |
| `Dashboard.StarredSectionExact` | src/pages/Dashboard.tsx:96-97 | "starred" shows only starred notes, and every starred note that matches the query |
| `Dashboard.OtherSectionShowsAll` | src/pages/Dashboard.tsx:92-98 | any other section id, with an empty query, shows the whole list unchanged |
| `Dashboard.MatchesIgnoresCase` | src/pages/Dashboard.tsx:101-105 | queries that differ only in letter case match the same notes |
| `Dashboard.FilteredIgnoresCase` | src/pages/Dashboard.tsx:101-105 | queries that differ only in letter case display the same list |
| `Dashboard.UpperCaseQuery` | src/pages/Dashboard.tsx:101-105 | the upper-cased query displays exactly what the query does |
| `Dashboard.Stats` | src/pages/Dashboard.tsx:74-78 | noteStats: the total is the list's length; shared and starred are the numbers of positions with that flag set; neither exceeds the total |
| `Dashboard.StatsMatchSections` | src/pages/Dashboard.tsx:74-98 | the sidebar's shared and starred counts equal the lengths of the lists those sections show for an empty query |
| `Dashboard.SectionTitle` | src/pages/Dashboard.tsx:80-89 | getSectionTitle: the heading of each of the five known ids, and "My Notes" for any other id |
| `Dashboard.TitleNamesFilter` | src/pages/Dashboard.tsx:80-98 | the heading is "Shared Notes" or "Starred Notes" exactly when that flag filter is in force, and "My Notes" never hides a note for its flags |
| `Dashboard.EmptyStateFor` | src/pages/Dashboard.tsx:192-205 | "No notes found" appears exactly when the list is empty; it shows the search hint when there is a query, and otherwise the first-note hint and the create button |
| `Dashboard.StarredMismatchIsEmpty` | src/pages/Dashboard.tsx:192-205 | a query that only unstarred notes match leaves the starred section empty, with the search hint and no create button |
| `Dashboard.Page.constructor` | src/pages/Dashboard.tsx:69-72 | initial state: sidebar open, section "my-notes", grid view, empty query |
| `Dashboard.Page.ToggleSidebar` | src/pages/Dashboard.tsx:115 | the navbar's menu button flips `sidebarOpen` and changes nothing else |
| `Dashboard.Page.ChangeSection` | src/pages/Dashboard.tsx:122 | the sidebar's section callback sets `activeSection` and changes nothing else |
| `Dashboard.Page.SetViewMode` | src/pages/Dashboard.tsx:133-146 | the grid and list buttons set `viewMode` and change nothing else |
| `Dashboard.Page.SetSearchQuery` | src/pages/Dashboard.tsx:157 | the search input sets `searchQuery` and changes nothing else |
| `Dashboard.Page.View` | src/pages/Dashboard.tsx:131-207 | one render: the heading, the sidebar counts (`Stats` of the notes), the filtered cards (exactly the visible notes, in order), the empty-state panel and the layout |
| `NoteCard.HoursElapsed` | src/components/NoteCard.tsx:50 | the whole number of hours `h` with `h` hours <= elapsed time < `h+1` hours |
| `NoteCard.HoursElapsedIsFloor` | src/components/NoteCard.tsx:50 | that count is Math.floor of the exact quotient of the elapsed milliseconds by 3600000 |
| `NoteCard.FormatDate` | src/components/NoteCard.tsx:48-56 | formatDate puts under 1 hour in "Just now", 1 to 23 hours in "{h}h ago", 24 to 47 hours in "Yesterday", and 48 hours or more in the date itself; each boundary is stated both ways |
| `NoteCard.FutureIsJustNow` | src/components/NoteCard.tsx:50-52 | a date in the future reads "Just now" |
| `NoteCard.FormatDateMonotone` | src/components/NoteCard.tsx:48-56 | a later render never labels the same date as more recent |
| `NoteCard.Decimal` | src/components/NoteCard.tsx:53 | the decimal text the card prints for an hour count (1 to 23) or a tag overflow count: a non-empty string of digits, one digit exactly below 10, with no leading zero |
| `NoteCard.DecimalRoundTrip` | src/components/NoteCard.tsx:53 | the printed digits read back as the number |
| `NoteCard.LabelText` | src/components/NoteCard.tsx:52-55 | the label's text: "Just now", "Yesterday", the locale date string (a parameter), or the hour count's digits followed by "h ago" |
| `NoteCard.DateText` | src/components/NoteCard.tsx:48-56 | the footer reads "Just now" under an hour, "Yesterday" from 24 to 47 hours, and the locale date from 48 hours on |
| `NoteCard.HoursAgoText` | src/components/NoteCard.tsx:53 | "{h}h ago" has one or two digits, then "h ago", and the digits are the hour count |
| `NoteCard.SlicePrefix` | src/components/NoteCard.tsx:156 | `slice(0, k)` is the prefix of length min(length, k) |
| `NoteCard.TagRowFor` | src/components/NoteCard.tsx:154-171 | no tag row for no tags; otherwise the first three tags, and a badge exactly when there are more than three, counting the rest |
| `NoteCard.TagRowAccountsForEveryTag` | src/components/NoteCard.tsx:154-169 | the shown tags and the badge's count together cover every tag, and the hidden tags are the rest of the list |
| `NoteCard.BadgeText` | src/components/NoteCard.tsx:165-168 | "+N" starts with a plus sign, and its digits read back as N |
| `NoteCard.Props` | src/components/NoteCard.tsx:37-40 | missing props default to not shared, not starred, 0 collaborators and the blue theme; supplied props are kept; the flags agree with the dashboard's truthiness |
| `NoteCard.Render` | src/components/NoteCard.tsx:66-197 | the title falls back to "Untitled Note" and the content to "No content"; the star icon, the Star/Unstar label and the Shared label follow the flags; the collaborator count appears only when shared with more than 0; plus the tag row, the date label and the theme |
| `Dashboard.SectionCardsShowTheirFlag` | src/components/NoteCard.tsx:82-194 | every card in the shared section shows "Shared", and every card in the starred section shows the star icon and "Unstar" |
| `NoteCard.ItemCallback` | src/components/NoteCard.tsx:106-141 | Star, Share and Delete are bound to onStar, onShare and onDelete, one item per callback |
| `NoteCard.CardStep` | src/components/NoteCard.tsx:73-141 | a body click fires onEdit; the menu button toggles the menu and fires nothing; a menu item clicked while the menu is open closes it and fires exactly its own callback; while the menu is closed it does nothing |
| `NoteCard.CardRun` | src/components/NoteCard.tsx:73-141 | a sequence of clicks on the card: each click fires at most one callback, only a supplied one fires, and the earlier log is kept as a prefix |
| `NoteCard.OpenAndChoose` | src/components/NoteCard.tsx:92-141 | opening the menu and choosing an item fires that item's callback once and leaves the menu closed |
| `NoteCard.CardRunOnlyAppends` | src/components/NoteCard.tsx:73-141 | clicks only append to the log of fired callbacks, and without a body click onEdit is never fired |
| `NoteCard.Card.constructor` | src/components/NoteCard.tsx:46 | the menu starts closed and nothing has fired |
| `NoteCard.Card.ClickBody` | src/components/NoteCard.tsx:73 | the card's onClick fires onEdit, if supplied, and leaves the menu as it was |
| `NoteCard.Card.ClickMenuButton` | src/components/NoteCard.tsx:92-95 | the menu button flips `showMenu` and fires nothing |
| `NoteCard.Card.ClickMenuItem` | src/components/NoteCard.tsx:106-141 | Star, Share and Delete fire onStar, onShare and onDelete if supplied and close the menu |
| `FloatingActionButton.EntryOf` | src/components/FloatingActionButton.tsx:21-46 | the actions table binds each of the four callbacks at exactly one position |
| `Callbacks.Invoke` | src/components/FloatingActionButton.tsx:70 | `callback?.()` (the card's `onStar?.()`, `onShare?.()`, `onDelete?.()`, and the button's `action.onClick?.()`) fires the callback exactly when the parent supplied it |
| `FloatingActionButton.Step` | src/components/FloatingActionButton.tsx:69-88 | the main button flips `isExpanded`; an action button fires its own callback and collapses the menu |
| `FloatingActionButton.Run` | src/components/FloatingActionButton.tsx:69-88 | a sequence of clicks on the button: each click fires at most one callback, only a supplied one fires, and the earlier log is kept as a prefix |
| `FloatingActionButton.RunAppend` | src/components/FloatingActionButton.tsx:69-88 | running two click sequences one after the other is running their concatenation |
| `FloatingActionButton.MainClicks` | src/components/FloatingActionButton.tsx:88 | `k` clicks of the main button |
| `FloatingActionButton.MainClicksParity` | src/components/FloatingActionButton.tsx:88 | main-button clicks fire nothing; after an even number the button is as it was, after an odd number it is flipped |
| `FloatingActionButton.ActionClickEndsCollapsed` | src/components/FloatingActionButton.tsx:69-72 | after any click history, an action click leaves the button collapsed and adds just that action's callback |
| `FloatingActionButton.Fab.constructor` | src/components/FloatingActionButton.tsx:19 | the button starts collapsed and nothing has fired |
| `FloatingActionButton.Fab.ClickMain` | src/components/FloatingActionButton.tsx:88 | the main button flips `expanded` |
| `FloatingActionButton.Fab.ClickAction` | src/components/FloatingActionButton.tsx:69-72 | an action button fires its callback, if supplied, and collapses the menu |
| `MockData.Note1` | src/pages/Dashboard.tsx:13-22 | the first mock note: "Machine Learning Fundamentals", starred and not shared; at load its card reads "2h ago" |
| `MockData.Note2` | src/pages/Dashboard.tsx:23-32 | the second mock note: "React Best Practices", shared and not starred; at load its card reads "5h ago" |
| `MockData.Note3` | src/pages/Dashboard.tsx:33-40 | the third mock note: "Project Planning Meeting Notes", neither shared nor starred; at load its card reads "Yesterday" |
| `MockData.Note4` | src/pages/Dashboard.tsx:41-49 | the fourth mock note: "Data Structures & Algorithms", starred and not shared; at load its card shows its date |
| `MockData.Note5` | src/pages/Dashboard.tsx:50-59 | the fifth mock note: "UX Design Principles", shared and not starred; at load its card shows its date |
| `MockData.MockNotes` | src/pages/Dashboard.tsx:12-60 | mockNotes: the five notes in order, with distinct ids (the cards' React keys) |
| `MockData.MockSharedNotes` | src/pages/Dashboard.tsx:12-60 | the shared mock notes are "2" and "5", in that order |
| `MockData.MockStarredNotes` | src/pages/Dashboard.tsx:12-60 | the starred mock notes are "1" and "4", in that order |
| `MockData.MockStats` | src/pages/Dashboard.tsx:74-78 | for the mock notes the sidebar reads 5 notes, 2 shared and 2 starred |
| `MockData.NoFourNoMatch` | src/pages/Dashboard.tsx:102-104 | a text without the digit 4 cannot include the lower-cased query "q4" |
| `MockData.Note3HasQ4` | src/pages/Dashboard.tsx:36 | note "3" matches "Q4" through its content |
| `MockData.MockSearchQ4` | src/pages/Dashboard.tsx:100-105 | searching the mock notes for "Q4" in "my-notes" shows note "3" and nothing else |
| `MockData.MockStarredQ4IsEmpty` | src/pages/Dashboard.tsx:192-200 | searching "Q4" in the starred section shows nothing and the search hint, without the create button |
| `MockData.MockSearchReact` | src/pages/Dashboard.tsx:101-102 | the upper-case query "REACT" finds "React Best Practices" |
| `MockData.MockDateLabels` | src/pages/Dashboard.tsx:18-55 | within an hour of loading, the mock cards read "2h ago", "5h ago", "Yesterday" and two absolute dates |
| `MockData.OpenDashboard` | src/pages/Dashboard.tsx:68-78 | a freshly opened dashboard shows "My Notes" and every mock note in order, and counts 5, 2 and 2 |

## Left out

- Rendering is not modelled: the JSX markup, CSS classes, icons, animations and
  the color-theme classes. The card keeps its theme as a value. The action
  buttons' `pointer-events-none` while collapsed is a style too. The model lets
  an action click happen in either state, and collapses the menu either way.
- The `Navbar` and `Sidebar` components are not part of this model, and neither
  is `mockUser`. The dashboard's callbacks into them are modelled by the
  `Page` methods they call.
- React's hooks and re-render scheduling are left out. Each `setX` is a
  synchronous method on the class, and each render is a call of `Page.View` or
  `NoteCard.Render`.
- The `console.log` handlers the dashboard passes down are left out. A fired
  callback is recorded in the `invoked` log instead.
- `Date.now()` and `new Date()` are parameters: the load time `loadedAt` and
  the render time `now`, in milliseconds. `toLocaleDateString()` depends on the
  locale, so `NoteCard.LabelText` takes its text as a parameter.
- Time is an integer number of milliseconds, not a floating-point `Date`
  value.
- `NoteCard.FormatDate`: does not model floating-point division. Math.floor of
  a double quotient is taken to equal integer floor division.
- `NoteCard.Decimal`: prints every digit of any natural number. JavaScript switches to
  exponent form from 10^21 on, which no hour count or tag count the card prints reaches.
- `Text.Lower`: folds only the ASCII letters A–Z. Unicode case mappings and the
  UTF-16 code units that `includes` compares are not modelled.
- `MockData.MockSearchReact`: states only that note "2" is among the results,
  not that it is the only one.
- The mock texts are written as concatenations of short literals. They have
  the same characters as the page's texts.
