/** The note card: how it labels the last-modified time, which tags it shows,
    the defaults and fallbacks of its props, the labels its flags switch on, and
    its action menu. */
module NoteCard {
  import opened Notes
  import opened Callbacks

  /** 1000 * 60 * 60 */
  const MsPerHour := 3600000

  datatype DateLabel = JustNow | HoursAgo(hours: int) | Yesterday | AbsoluteDate(date: int)

  /** Math.floor((now - date) / (1000 * 60 * 60)) on integer milliseconds. With a
      positive divisor Dafny's `/` rounds down, as Math.floor does. */
  function HoursElapsed(now: int, date: int): (h: int)
    ensures h * MsPerHour <= now - date < (h + 1) * MsPerHour
  {
    (now - date) / MsPerHour
  }

  /** The whole-hour count is the floor of the exact quotient. */
  lemma HoursElapsedIsFloor(now: int, date: int)
    ensures (HoursElapsed(now, date) as real) <= (now - date) as real / MsPerHour as real
    ensures (now - date) as real / MsPerHour as real < (HoursElapsed(now, date) + 1) as real
  {
    var h, e, m := HoursElapsed(now, date), (now - date) as real, MsPerHour as real;
    var lo, hi := h * MsPerHour, (h + 1) * MsPerHour;
    assert lo as real == (h as real) * m;
    assert hi as real == ((h + 1) as real) * m;
    assert (h as real) * m <= e;
    assert e < ((h + 1) as real) * m;
    assert h as real == (h as real) * m / m;
    assert (h + 1) as real == ((h + 1) as real) * m / m;
  }

  /** formatDate: buckets the elapsed time into whole hours. */
  function FormatDate(now: int, date: int): (r: DateLabel)
    ensures r == JustNow <==> now - date < MsPerHour
    ensures r.HoursAgo? <==> MsPerHour <= now - date < 24 * MsPerHour
    ensures r.HoursAgo? ==> 1 <= r.hours <= 23
    ensures r.HoursAgo? ==> r.hours * MsPerHour <= now - date < (r.hours + 1) * MsPerHour
    ensures r == Yesterday <==> 24 * MsPerHour <= now - date < 48 * MsPerHour
    ensures r.AbsoluteDate? <==> 48 * MsPerHour <= now - date
    ensures r.AbsoluteDate? ==> r.date == date
  {
    var h := HoursElapsed(now, date);
    if h < 1 then JustNow
    else if h < 24 then HoursAgo(h)
    else if h < 48 then Yesterday
    else AbsoluteDate(date)
  }

  /** A date in the future has a negative elapsed time and reads "Just now". */
  lemma FutureIsJustNow(now: int, date: int)
    requires date > now
    ensures FormatDate(now, date) == JustNow
  {
  }

  /** The order of the buckets: a later render never labels a date as more recent. */
  function Rank(l: DateLabel): int
  {
    match l
    case JustNow => 0
    case HoursAgo(h) => h
    case Yesterday => 24
    case AbsoluteDate(_) => 48
  }

  lemma FormatDateMonotone(now1: int, now2: int, date: int)
    requires now1 <= now2
    ensures Rank(FormatDate(now1, date)) <= Rank(FormatDate(now2, date))
  {
    var h1, h2 := HoursElapsed(now1, date), HoursElapsed(now2, date);
    assert h1 <= h2;
  }

  function Digit(d: int): (c: char)
    requires 0 <= d < 10
    ensures '0' <= c <= '9' && c as int - '0' as int == d
  {
    ('0' as int + d) as char
  }

  /** A non-negative number as JavaScript prints it in a template literal. */
  function Decimal(n: nat): (r: string)
    ensures |r| >= 1
    ensures forall i :: 0 <= i < |r| ==> '0' <= r[i] <= '9'
    ensures n < 10 <==> |r| == 1
    ensures n > 0 ==> r[0] != '0'
    decreases n
  {
    if n < 10 then [Digit(n)] else Decimal(n / 10) + [Digit(n % 10)]
  }

  /** Reads a string of decimal digits back as a number. */
  function DecimalValue(s: string): int
  {
    if s == [] then 0 else DecimalValue(s[..|s| - 1]) * 10 + (s[|s| - 1] as int - '0' as int)
  }

  lemma {:induction false} DecimalRoundTrip(n: nat)
    ensures DecimalValue(Decimal(n)) == n
    decreases n
  {
    if n >= 10 {
      DecimalRoundTrip(n / 10);
      var s := Decimal(n);
      assert s[..|s| - 1] == Decimal(n / 10);
    }
  }

  /** The text of a date label; `localeDate` stands for toLocaleDateString's result. */
  function LabelText(l: DateLabel, localeDate: string): (r: string)
    requires l.HoursAgo? ==> l.hours >= 0
    ensures l == JustNow ==> r == "Just now"
    ensures l == Yesterday ==> r == "Yesterday"
    ensures l.AbsoluteDate? ==> r == localeDate
    ensures l.HoursAgo? ==> |r| > 5 && r[|r| - 5..] == "h ago" && DecimalValue(r[..|r| - 5]) == l.hours
  {
    match l
    case JustNow => "Just now"
    case HoursAgo(h) =>
      DecimalRoundTrip(h);
      assert (Decimal(h) + "h ago")[..|Decimal(h)|] == Decimal(h);
      Decimal(h) + "h ago"
    case Yesterday => "Yesterday"
    case AbsoluteDate(_) => localeDate
  }

  /** The footer's date text, by elapsed time: "Just now" under an hour,
      "Yesterday" from 24 to 47 hours, and the locale date from 48 hours on. */
  lemma DateText(now: int, date: int, localeDate: string)
    ensures now - date < MsPerHour ==> LabelText(FormatDate(now, date), localeDate) == "Just now"
    ensures 24 * MsPerHour <= now - date < 48 * MsPerHour ==>
            LabelText(FormatDate(now, date), localeDate) == "Yesterday"
    ensures 48 * MsPerHour <= now - date ==> LabelText(FormatDate(now, date), localeDate) == localeDate
  {
  }

  /** The "{h}h ago" text carries the whole-hour count, in one or two digits. */
  lemma HoursAgoText(now: int, date: int, localeDate: string)
    requires FormatDate(now, date).HoursAgo?
    ensures var t := LabelText(FormatDate(now, date), localeDate);
            1 <= |t| - 5 <= 2 &&
            t[|t| - 5..] == "h ago" &&
            DecimalValue(t[..|t| - 5]) == FormatDate(now, date).hours
  {
    var h := FormatDate(now, date).hours;
    var t := LabelText(FormatDate(now, date), localeDate);
    assert t == Decimal(h) + "h ago";
    assert t[..|t| - 5] == Decimal(h);
    DecimalRoundTrip(h);
    assert h < 10 || Decimal(h) == Decimal(h / 10) + [Digit(h % 10)];
  }

  const MaxShownTags := 3

  /** The tag row: absent, or up to three tags and possibly a "+N" badge. */
  datatype TagRow = NoTagRow | TagRow(shown: seq<string>, overflow: Option<nat>)

  /** tags.slice(0, k). */
  function SlicePrefix(s: seq<string>, k: nat): (r: seq<string>)
    ensures |r| == if |s| < k then |s| else k
    ensures r == s[..|r|]
  {
    if |s| <= k then s else s[..k]
  }

  function TagRowFor(tags: seq<string>): (r: TagRow)
    ensures r.NoTagRow? <==> tags == []
    ensures r.TagRow? ==> |r.shown| == (if |tags| < MaxShownTags then |tags| else MaxShownTags)
    ensures r.TagRow? ==> r.shown == tags[..|r.shown|]
    ensures r.TagRow? ==> (r.overflow.Some? <==> |tags| > MaxShownTags)
    ensures r.TagRow? && r.overflow.Some? ==> r.overflow.value == |tags| - MaxShownTags > 0
  {
    if |tags| > 0 then
      TagRow(SlicePrefix(tags, MaxShownTags),
             if |tags| > MaxShownTags then Some(|tags| - MaxShownTags) else None)
    else NoTagRow
  }

  /** Nothing is lost: the shown tags and the badge's count cover every tag, and
      the hidden tags are exactly the ones after the shown prefix. */
  lemma TagRowAccountsForEveryTag(tags: seq<string>)
    requires tags != []
    ensures var r := TagRowFor(tags);
            |r.shown| + (if r.overflow.Some? then r.overflow.value else 0) == |tags| &&
            r.shown + tags[|r.shown|..] == tags
  {
  }

  /** The badge text "+{tags.length - 3}": a plus sign and the count, which reads back. */
  function BadgeText(overflow: nat): (r: string)
    ensures |r| >= 2 && r[0] == '+'
    ensures DecimalValue(r[1..]) == overflow
  {
    DecimalRoundTrip(overflow);
    assert ("+" + Decimal(overflow))[1..] == Decimal(overflow);
    "+" + Decimal(overflow)
  }

  /** The props after their defaults are applied. */
  datatype CardProps = CardProps(isShared: bool, isStarred: bool, collaborators: int, colorTheme: ColorTheme)

  function GetOr<T>(o: Option<T>, default: T): T
  {
    if o.Some? then o.value else default
  }

  /** Missing props default to not shared, not starred, no collaborators and the blue theme. */
  function Props(n: Note): (p: CardProps)
    ensures n.isShared == None ==> !p.isShared
    ensures n.isStarred == None ==> !p.isStarred
    ensures n.collaborators == None ==> p.collaborators == 0
    ensures n.colorTheme == None ==> p.colorTheme == Blue
    ensures n.isShared.Some? ==> p.isShared == n.isShared.value
    ensures n.isStarred.Some? ==> p.isStarred == n.isStarred.value
    ensures n.collaborators.Some? ==> p.collaborators == n.collaborators.value
    ensures n.colorTheme.Some? ==> p.colorTheme == n.colorTheme.value
    ensures p.isShared == Shared(n) && p.isStarred == Starred(n)
  {
    CardProps(GetOr(n.isShared, false), GetOr(n.isStarred, false),
              GetOr(n.collaborators, 0), GetOr(n.colorTheme, Blue))
  }

  /** What one card shows. */
  datatype CardView = CardView(
    heading: string,
    starIcon: bool,
    preview: string,
    tags: TagRow,
    date: DateLabel,
    collaboratorCount: Option<int>,
    sharedLabel: bool,
    starMenuLabel: string,
    theme: ColorTheme)

  /** The card for note `n`, rendered at time `now`. */
  function Render(n: Note, now: int): (v: CardView)
    ensures v.heading != "" && v.preview != ""
    ensures n.title != "" ==> v.heading == n.title
    ensures n.title == "" ==> v.heading == "Untitled Note"
    ensures n.content != "" ==> v.preview == n.content
    ensures n.content == "" ==> v.preview == "No content"
    ensures v.starIcon <==> Starred(n)
    ensures v.sharedLabel <==> Shared(n)
    ensures v.collaboratorCount.Some? <==>
            Shared(n) && n.collaborators.Some? && n.collaborators.value > 0
    ensures v.collaboratorCount.Some? ==> v.collaboratorCount == n.collaborators
    ensures Starred(n) ==> v.starMenuLabel == "Unstar"
    ensures !Starred(n) ==> v.starMenuLabel == "Star"
    ensures v.tags == TagRowFor(n.tags) && v.date == FormatDate(now, n.lastModified)
    ensures v.theme == Props(n).colorTheme
  {
    var p := Props(n);
    CardView(
      if n.title != "" then n.title else "Untitled Note",
      p.isStarred,
      if n.content != "" then n.content else "No content",
      TagRowFor(n.tags),
      FormatDate(now, n.lastModified),
      if p.isShared && p.collaborators > 0 then Some(p.collaborators) else None,
      p.isShared,
      if p.isStarred then "Unstar" else "Star",
      p.colorTheme)
  }

  /** The callbacks a card can invoke. */
  datatype CardCallback = OnEdit | OnShare | OnStar | OnDelete

  /** The user's clicks on a card. */
  datatype CardInput = CardBody | MenuButton | StarItem | ShareItem | DeleteItem

  /** The callback behind each of the menu's three items. */
  function ItemCallback(item: CardInput): (c: CardCallback)
    requires item in {StarItem, ShareItem, DeleteItem}
    ensures item == StarItem <==> c == OnStar
    ensures item == ShareItem <==> c == OnShare
    ensures item == DeleteItem <==> c == OnDelete
  {
    match item
    case StarItem => OnStar
    case ShareItem => OnShare
    case DeleteItem => OnDelete
  }

  /** The card's local state and the callbacks invoked so far. */
  datatype CardState = CardState(showMenu: bool, invoked: seq<CardCallback>)

  /** One click. The menu button and the open menu stop the click from reaching
      the card body, so only a body click invokes onEdit; the menu items exist
      only while the menu is open, and each closes it. */
  function CardStep(supplied: set<CardCallback>, s: CardState, input: CardInput): (t: CardState)
    ensures input == CardBody ==> t == CardState(s.showMenu, s.invoked + Invoke(supplied, OnEdit))
    ensures input == MenuButton ==> t == CardState(!s.showMenu, s.invoked)
    ensures input != CardBody && input != MenuButton && !s.showMenu ==> t == s
    ensures input in {StarItem, ShareItem, DeleteItem} && s.showMenu ==>
            t == CardState(false, s.invoked + Invoke(supplied, ItemCallback(input)))
  {
    match input
    case CardBody => CardState(s.showMenu, s.invoked + Invoke(supplied, OnEdit))
    case MenuButton => CardState(!s.showMenu, s.invoked)
    case StarItem => if s.showMenu then CardState(false, s.invoked + Invoke(supplied, OnStar)) else s
    case ShareItem => if s.showMenu then CardState(false, s.invoked + Invoke(supplied, OnShare)) else s
    case DeleteItem => if s.showMenu then CardState(false, s.invoked + Invoke(supplied, OnDelete)) else s
  }

  /** A sequence of clicks. Each click fires at most one callback, and only a supplied one. */
  function CardRun(supplied: set<CardCallback>, s: CardState, inputs: seq<CardInput>): (r: CardState)
    ensures |s.invoked| <= |r.invoked| <= |s.invoked| + |inputs|
    ensures r.invoked[..|s.invoked|] == s.invoked
    ensures forall c :: c in r.invoked[|s.invoked|..] ==> c in supplied
    decreases |inputs|
  {
    if inputs == [] then s
    else
      var t := CardStep(supplied, s, inputs[0]);
      var r := CardRun(supplied, t, inputs[1..]);
      assert r.invoked[..|s.invoked|] == r.invoked[..|t.invoked|][..|s.invoked|];
      assert r.invoked[|s.invoked|..] == t.invoked[|s.invoked|..] + r.invoked[|t.invoked|..];
      r
  }

  /** Opening the menu and choosing an item invokes that item's callback once and
      leaves the menu closed, whatever the menu's state was. */
  lemma {:induction false} OpenAndChoose(supplied: set<CardCallback>, s: CardState, item: CardInput)
    requires item in {StarItem, ShareItem, DeleteItem}
    ensures var t := CardRun(supplied, s, if s.showMenu then [item] else [MenuButton, item]);
            !t.showMenu &&
            t.invoked == s.invoked + Invoke(supplied, ItemCallback(item))
  {
    var open := CardState(true, s.invoked);
    if s.showMenu {
      assert CardRun(supplied, s, [item]) == CardRun(supplied, CardStep(supplied, s, item), []);
    } else {
      assert CardRun(supplied, s, [MenuButton, item]) ==
             CardRun(supplied, open, [item]);
      assert CardRun(supplied, open, [item]) == CardRun(supplied, CardStep(supplied, open, item), []);
    }
  }

  /** Clicks only append to the log of invoked callbacks, and never onEdit from the menu. */
  lemma {:induction false} CardRunOnlyAppends(supplied: set<CardCallback>, s: CardState, inputs: seq<CardInput>)
    ensures |CardRun(supplied, s, inputs).invoked| >= |s.invoked|
    ensures CardRun(supplied, s, inputs).invoked[..|s.invoked|] == s.invoked
    ensures CardBody !in inputs ==>
            OnEdit !in CardRun(supplied, s, inputs).invoked[|s.invoked|..]
    decreases |inputs|
  {
    if inputs != [] {
      var t := CardStep(supplied, s, inputs[0]);
      CardRunOnlyAppends(supplied, t, inputs[1..]);
      var u := CardRun(supplied, t, inputs[1..]);
      assert u.invoked[..|t.invoked|] == t.invoked;
      assert t.invoked[..|s.invoked|] == s.invoked;
      if CardBody !in inputs {
        assert CardBody !in inputs[1..];
        assert inputs[0] != CardBody;
        assert OnEdit !in t.invoked[|s.invoked|..];
        assert u.invoked[|s.invoked|..] == t.invoked[|s.invoked|..] + u.invoked[|t.invoked|..];
      }
    }
  }

  /** A mounted card: `showMenu` starts false; `invoked` records the callbacks fired. */
  class Card {
    const supplied: set<CardCallback>
    var showMenu: bool
    var invoked: seq<CardCallback>

    constructor (supplied: set<CardCallback>)
      ensures this.supplied == supplied && !showMenu && invoked == []
    {
      this.supplied := supplied;
      showMenu := false;
      invoked := [];
    }

    function State(): CardState
      reads this
    {
      CardState(showMenu, invoked)
    }

    /** onClick on the card: onEdit. */
    method ClickBody()
      modifies this`invoked
      ensures invoked == old(invoked) + Invoke(supplied, OnEdit)
      ensures State() == CardStep(supplied, old(State()), CardBody)
    {
      if OnEdit in supplied {
        invoked := invoked + [OnEdit];
      }
    }

    /** The menu button flips showMenu and nothing else. */
    method ClickMenuButton()
      modifies this`showMenu
      ensures showMenu == !old(showMenu)
      ensures State() == CardStep(supplied, old(State()), MenuButton)
    {
      showMenu := !showMenu;
    }

    /** One of the menu's items; a click while the menu is closed finds no item. */
    method ClickMenuItem(item: CardInput)
      requires item in {StarItem, ShareItem, DeleteItem}
      modifies this
      ensures !showMenu
      ensures invoked == old(invoked) + (if old(showMenu) then Invoke(supplied, ItemCallback(item)) else [])
      ensures State() == CardStep(supplied, old(State()), item)
    {
      if showMenu {
        var c := ItemCallback(item);
        if c in supplied {
          invoked := invoked + [c];
        }
        showMenu := false;
      }
    }
  }
}
