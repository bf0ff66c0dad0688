/** The floating action button: a main button that expands and collapses a
    fixed list of four quick actions. */
module FloatingActionButton {
  import opened Callbacks

  /** The four callbacks the button's parent may supply. */
  datatype Callback = OnCreateNote | OnVoiceNote | OnAIAssist | OnTemplate

  datatype ActionEntry = ActionEntry(name: string, callback: Callback)

  /** The `actions` table, in display order. */
  const Actions: seq<ActionEntry> := [
    ActionEntry("New Note", OnCreateNote),
    ActionEntry("Voice Note", OnVoiceNote),
    ActionEntry("AI Assist", OnAIAssist),
    ActionEntry("Template", OnTemplate)]

  /** The position of a callback's entry: each callback is bound by exactly one entry. */
  function EntryOf(c: Callback): (i: nat)
    ensures i < |Actions| && Actions[i].callback == c
    ensures forall j :: 0 <= j < |Actions| && Actions[j].callback == c ==> j == i
  {
    match c
    case OnCreateNote => 0
    case OnVoiceNote => 1
    case OnAIAssist => 2
    case OnTemplate => 3
  }

  /** The user's clicks: the main button, or the action button at a position of the table. */
  datatype Input = MainButton | ActionButton(index: nat)

  predicate ValidInput(input: Input)
  {
    input.ActionButton? ==> input.index < |Actions|
  }

  /** The expanded flag and the callbacks invoked so far. */
  datatype FabState = FabState(expanded: bool, invoked: seq<Callback>)

  /** One click: the main button flips the flag; an action button invokes its
      own callback and collapses, whatever the flag was. */
  function Step(supplied: set<Callback>, s: FabState, input: Input): (t: FabState)
    requires ValidInput(input)
    ensures input == MainButton ==> t.expanded == !s.expanded && t.invoked == s.invoked
    ensures input.ActionButton? ==>
            !t.expanded && t.invoked == s.invoked + Invoke(supplied, Actions[input.index].callback)
  {
    match input
    case MainButton => FabState(!s.expanded, s.invoked)
    case ActionButton(i) => FabState(false, s.invoked + Invoke(supplied, Actions[i].callback))
  }

  /** A sequence of clicks. Each click fires at most one callback, and only a supplied one. */
  function Run(supplied: set<Callback>, s: FabState, inputs: seq<Input>): (r: FabState)
    requires forall k :: 0 <= k < |inputs| ==> ValidInput(inputs[k])
    ensures |s.invoked| <= |r.invoked| <= |s.invoked| + |inputs|
    ensures r.invoked[..|s.invoked|] == s.invoked
    ensures forall c :: c in r.invoked[|s.invoked|..] ==> c in supplied
    decreases |inputs|
  {
    if inputs == [] then s
    else
      var t := Step(supplied, s, inputs[0]);
      var r := Run(supplied, t, inputs[1..]);
      assert r.invoked[..|s.invoked|] == r.invoked[..|t.invoked|][..|s.invoked|];
      assert r.invoked[|s.invoked|..] == t.invoked[|s.invoked|..] + r.invoked[|t.invoked|..];
      r
  }

  lemma {:induction false} RunAppend(supplied: set<Callback>, s: FabState, a: seq<Input>, b: seq<Input>)
    requires forall k :: 0 <= k < |a| ==> ValidInput(a[k])
    requires forall k :: 0 <= k < |b| ==> ValidInput(b[k])
    ensures forall k :: 0 <= k < |a + b| ==> ValidInput((a + b)[k])
    ensures Run(supplied, s, a + b) == Run(supplied, Run(supplied, s, a), b)
    decreases |a|
  {
    assert forall k :: 0 <= k < |a + b| ==> ValidInput((a + b)[k]) by {
      forall k | 0 <= k < |a + b| ensures ValidInput((a + b)[k]) {
        if k < |a| {
          assert (a + b)[k] == a[k];
        } else {
          assert (a + b)[k] == b[k - |a|];
        }
      }
    }
    if a == [] {
      assert a + b == b;
    } else {
      assert (a + b)[1..] == a[1..] + b;
      RunAppend(supplied, Step(supplied, s, a[0]), a[1..], b);
    }
  }

  /** `k` clicks of the main button. */
  function MainClicks(k: nat): (r: seq<Input>)
    ensures |r| == k && forall i :: 0 <= i < k ==> r[i] == MainButton
  {
    if k == 0 then [] else [MainButton] + MainClicks(k - 1)
  }

  /** Main-button clicks alone invoke nothing; after an even number the button is
      as it was, after an odd number it is flipped. Two clicks restore the state. */
  lemma {:induction false} MainClicksParity(supplied: set<Callback>, s: FabState, k: nat)
    ensures Run(supplied, s, MainClicks(k)) == FabState(s.expanded != (k % 2 == 1), s.invoked)
    decreases k
  {
    if k > 0 {
      var t := Step(supplied, s, MainButton);
      assert MainClicks(k)[1..] == MainClicks(k - 1);
      MainClicksParity(supplied, t, k - 1);
    }
  }

  /** Whatever came before, a click on an action button leaves the button collapsed
      and adds exactly that action's callback to what was invoked. */
  lemma ActionClickEndsCollapsed(supplied: set<Callback>, s: FabState, inputs: seq<Input>, i: nat)
    requires forall k :: 0 <= k < |inputs| ==> ValidInput(inputs[k])
    requires i < |Actions|
    ensures forall k :: 0 <= k < |inputs + [ActionButton(i)]| ==> ValidInput((inputs + [ActionButton(i)])[k])
    ensures var before := Run(supplied, s, inputs);
            var after := Run(supplied, s, inputs + [ActionButton(i)]);
            !after.expanded &&
            after.invoked == before.invoked + Invoke(supplied, Actions[i].callback)
  {
    RunAppend(supplied, s, inputs, [ActionButton(i)]);
    var before := Run(supplied, s, inputs);
    assert Run(supplied, before, [ActionButton(i)]) ==
           Run(supplied, Step(supplied, before, ActionButton(i)), []);
  }

  /** The mounted button: collapsed at first. */
  class Fab {
    const supplied: set<Callback>
    var expanded: bool
    var invoked: seq<Callback>

    constructor (supplied: set<Callback>)
      ensures this.supplied == supplied && !expanded && invoked == []
    {
      this.supplied := supplied;
      expanded := false;
      invoked := [];
    }

    function State(): FabState
      reads this
    {
      FabState(expanded, invoked)
    }

    /** The main button's onClick. */
    method ClickMain()
      modifies this`expanded
      ensures expanded == !old(expanded)
      ensures State() == Step(supplied, old(State()), MainButton)
    {
      expanded := !expanded;
    }

    /** The onClick of the action button at `index`. */
    method ClickAction(index: nat)
      requires index < |Actions|
      modifies this
      ensures !expanded
      ensures invoked == old(invoked) + Invoke(supplied, Actions[index].callback)
      ensures State() == Step(supplied, old(State()), ActionButton(index))
    {
      var action := Actions[index];
      if action.callback in supplied {
        invoked := invoked + [action.callback];
      }
      expanded := false;
    }
  }
}
