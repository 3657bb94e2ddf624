/**
 * The alignment and list-style palettes: groups of radio buttons of which
 * exactly one is active. `AbiPalette.append` connects, for each button, a
 * callback to one engine signal that activates the button when the button's
 * predicate holds of the reported value and otherwise leaves the group alone.
 * The predicates are the three shapes of lambda the two palettes pass.
 */
module Palettes {
  import opened Wrappers
  import opened Seqs

  /** A value reported with an engine signal: a flag (the alignment signals)
      or a style name, possibly None (`style-name`). */
  datatype Prop = Flag(on: bool) | StyleName(style: Option<string>)

  /** `lambda abi, b: b`, `lambda abi, style: style == s` and
      `lambda abi, style: style not in ss`. */
  datatype Predicate = Identity | StyleIs(style: string) | StyleNotIn(styles: seq<string>)

  /** A predicate applied to a reported value, with Python's truth values:
      a string is true when it is not empty, None is false, and a flag never
      equals nor belongs to a list of strings. */
  function Holds(p: Predicate, prop: Prop): (h: bool)
    ensures prop == StyleName(None) ==> (h <==> p.StyleNotIn?)
    ensures prop.Flag? ==> (h <==> p.StyleNotIn? || (p.Identity? && prop.on))
  {
    match p
    case Identity =>
      (match prop
       case Flag(on) => on
       case StyleName(s) => s.Some? && s.value != "")
    case StyleIs(x) => prop == StyleName(Some(x))
    case StyleNotIn(xs) => !(prop.StyleName? && prop.style.Some? && prop.style.value in xs)
  }

  /** A radio button: the engine signal its callback listens to, and the
      predicate that activates it. */
  datatype Button = Button(signal: string, test: Predicate)

  const AlignmentButtons: seq<Button> :=
    [Button("left-align", Identity), Button("center-align", Identity),
     Button("right-align", Identity), Button("justify-align", Identity)]

  const ListStyles: seq<string> :=
    ["Bullet List", "Dashed List", "Numbered List", "Lower Case List", "Upper Case List"]

  /** list-none first, then one button per list style, in ListStyles order. */
  const ListButtons: seq<Button> :=
    [Button("style-name", StyleNotIn(ListStyles)),
     Button("style-name", StyleIs("Bullet List")),
     Button("style-name", StyleIs("Dashed List")),
     Button("style-name", StyleIs("Numbered List")),
     Button("style-name", StyleIs("Lower Case List")),
     Button("style-name", StyleIs("Upper Case List"))]

  /** The active button after `signal` reports `prop` to the callbacks of
      `buttons`, run in order of connection: the last one whose predicate
      holds, or `active` when none does. */
  function Dispatch(buttons: seq<Button>, signal: string, prop: Prop, active: int): (r: int)
    decreases |buttons|
    ensures (forall j :: 0 <= j < |buttons| && buttons[j].signal == signal ==> !Holds(buttons[j].test, prop))
              ==> r == active
    ensures (exists j :: 0 <= j < |buttons| && buttons[j].signal == signal && Holds(buttons[j].test, prop))
              ==> && 0 <= r < |buttons| && buttons[r].signal == signal && Holds(buttons[r].test, prop)
                  && forall j :: r < j < |buttons| && buttons[j].signal == signal ==> !Holds(buttons[j].test, prop)
  {
    if |buttons| == 0 then active
    else
      var i := |buttons| - 1;
      if buttons[i].signal == signal && Holds(buttons[i].test, prop) then i
      else Dispatch(buttons[..i], signal, prop, active)
  }

  /** When exactly one callback of the signal fires, its button ends active. */
  lemma {:induction false} DispatchSelectsOnlyHolder(buttons: seq<Button>, signal: string, prop: Prop,
                                                     active: int, k: nat)
    requires k < |buttons| && buttons[k].signal == signal && Holds(buttons[k].test, prop)
    requires forall j :: 0 <= j < |buttons| && j != k && buttons[j].signal == signal
               ==> !Holds(buttons[j].test, prop)
    ensures Dispatch(buttons, signal, prop, active) == k
    decreases |buttons|
  {
    if k < |buttons| - 1 {
      var init := buttons[..|buttons| - 1];
      assert forall j :: 0 <= j < |init| ==> init[j] == buttons[j];
      DispatchSelectsOnlyHolder(init, signal, prop, active, k);
    }
  }

  /** When no callback of the signal fires, the active button stays. */
  lemma {:induction false} DispatchKeepsActive(buttons: seq<Button>, signal: string, prop: Prop, active: int)
    requires forall j :: 0 <= j < |buttons| && buttons[j].signal == signal
               ==> !Holds(buttons[j].test, prop)
    ensures Dispatch(buttons, signal, prop, active) == active
    decreases |buttons|
  {
    if |buttons| > 0 {
      var init := buttons[..|buttons| - 1];
      assert forall j :: 0 <= j < |init| ==> init[j] == buttons[j];
      DispatchKeepsActive(init, signal, prop, active);
    }
  }

  /** The one list button whose predicate holds of a style: list-none unless
      the style is one of the list styles. */
  function ListButtonFor(style: Option<string>): (k: nat)
    ensures k < |ListButtons| && Holds(ListButtons[k].test, StyleName(style))
    ensures forall j :: 0 <= j < |ListButtons| && j != k ==> !Holds(ListButtons[j].test, StyleName(style))
    ensures k == 0 <==> style.None? || style.value !in ListStyles
  {
    if style.None? || style.value !in ListStyles then 0
    else
      var m := FirstIndex(ListStyles, style.value);
      assert ListButtons[m + 1].test == StyleIs(ListStyles[m]);
      m + 1
  }

  /** Every `style-name` report activates exactly the list button its
      predicate picks, whatever was active before. */
  lemma ListsActivateExactlyOne(style: Option<string>, active: int)
    ensures Dispatch(ListButtons, "style-name", StyleName(style), active) == ListButtonFor(style)
  {
    DispatchSelectsOnlyHolder(ListButtons, "style-name", StyleName(style), active, ListButtonFor(style));
  }

  /** An alignment signal reporting true activates its own button; reporting
      false leaves the group as it was. */
  lemma AlignmentFollowsFlag(k: nat, on: bool, active: int)
    requires k < |AlignmentButtons|
    ensures Dispatch(AlignmentButtons, AlignmentButtons[k].signal, Flag(on), active) == if on then k else active
  {
    var signal := AlignmentButtons[k].signal;
    if on {
      DispatchSelectsOnlyHolder(AlignmentButtons, signal, Flag(on), active, k);
    } else {
      DispatchKeepsActive(AlignmentButtons, signal, Flag(on), active);
    }
  }

  class AbiPalette {
    var buttons: seq<Button>
    /** The index of the active button; -1 while the group is empty. */
    var active: int

    ghost predicate Valid()
      reads this
    {
      if |buttons| == 0 then active == -1 else 0 <= active < |buttons|
    }

    constructor ()
      ensures Valid() && buttons == []
    {
      buttons := [];
      active := -1;
    }

    /** The Alignment palette: left, center, right and fill justification. */
    constructor Alignment()
      ensures Valid() && buttons == AlignmentButtons && active == 0
    {
      buttons := [];
      active := -1;
      new;
      Append(AlignmentButtons[0]);
      Append(AlignmentButtons[1]);
      Append(AlignmentButtons[2]);
      Append(AlignmentButtons[3]);
    }

    /** The Lists palette: no list, then the five list styles. */
    constructor Lists()
      ensures Valid() && buttons == ListButtons && active == 0
    {
      buttons := [];
      active := -1;
      new;
      Append(ListButtons[0]);
      Append(ListButtons[1]);
      Append(ListButtons[2]);
      Append(ListButtons[3]);
      Append(ListButtons[4]);
      Append(ListButtons[5]);
    }

    /** `append`: a new button joins the group; the first one starts active. */
    method Append(b: Button)
      requires Valid()
      modifies this
      ensures Valid() && buttons == old(buttons) + [b]
      ensures active == if old(buttons) == [] then 0 else old(active)
    {
      if buttons == [] {
        active := 0;
      }
      buttons := buttons + [b];
    }

    /** The callback `append` connects for button `i`: activate it if its
        predicate holds of the reported value, otherwise do nothing. */
    method OnSignal(i: nat, prop: Prop)
      requires Valid() && i < |buttons|
      modifies this
      ensures Valid() && buttons == old(buttons)
      ensures active == if Holds(buttons[i].test, prop) then i else old(active)
    {
      if Holds(buttons[i].test, prop) {
        active := i;
      }
    }

    /** The engine emits `signal`: the callbacks connected to it run in the
        order they were connected. */
    method Emit(signal: string, prop: Prop)
      requires Valid()
      modifies this
      ensures Valid() && buttons == old(buttons)
      ensures active == Dispatch(buttons, signal, prop, old(active))
    {
      for i := 0 to |buttons|
        invariant Valid() && buttons == old(buttons)
        invariant active == Dispatch(buttons[..i], signal, prop, old(active))
      {
        assert buttons[..i + 1][..i] == buttons[..i];
        if buttons[i].signal == signal {
          OnSignal(i, prop);
        }
      }
      assert buttons[..|buttons|] == buttons;
    }
  }
}
