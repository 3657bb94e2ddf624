/**
 * The font, font-size and paragraph-style combo boxes of the text toolbar.
 * Each mirrors one formatting attribute of the engine: a user's choice is sent
 * to the engine by the combo's `changed` handler, and the engine's report of
 * the attribute re-selects the matching entry with that handler blocked, so
 * that a resync never sends anything back. Following GTK, selecting the entry
 * that is already active emits no `changed` signal. `rows` counts the rows of
 * the combo's tree model, the separator row included.
 */
module Combos {
  import opened Wrappers
  import opened Engine
  import opened Seqs
  import Collation

  /** The list entry standing for the separator row. */
  const Separator := ""
  const DefaultFont := "Times New Roman"

  class FontCombo {
    const abi: Canvas
    var fonts: seq<string>
    var hasCustomFonts: bool
    var rows: nat
    var active: int
    /** Whether the `changed` handler is blocked. */
    var blocked: bool
    /** The sorted font names the engine knew at construction. */
    ghost var builtin: seq<string>

    /** The engine's fonts come first, one row per entry; unknown fonts only
        follow a single separator placed right after them. */
    ghost predicate Valid()
      reads this
    {
      && rows == |fonts|
      && -1 <= active < |fonts|
      && !blocked
      && |builtin| <= |fonts| && fonts[..|builtin|] == builtin
      && (hasCustomFonts <==> |builtin| < |fonts|)
      && (hasCustomFonts ==> fonts[|builtin|] == Separator)
    }

    /** `FontCombo.__init__`: the engine's font names sorted, Times New Roman
        selected if present. The `changed` handler is already connected, so
        each selection of it reaches the engine. */
    constructor (abi: Canvas, fontNames: seq<string>)
      modifies abi
      ensures Valid() && this.abi == abi && !hasCustomFonts
      ensures fonts == builtin == Collation.Sort(fontNames)
      ensures active >= 0 ==> fonts[active] == DefaultFont
      ensures forall j :: 0 <= j < |fonts| && j > active ==> fonts[j] != DefaultFont
      ensures abi.calls == old(abi.calls)
                           + Repeat(SetFontName(DefaultFont), Count(fonts, DefaultFont))
      ensures abi.text == old(abi.text)
    {
      this.abi := abi;
      var sorted := Collation.Sort(fontNames);
      fonts := sorted;
      builtin := sorted;
      hasCustomFonts := false;
      rows := 0;
      active := -1;
      blocked := false;
      new;
      FillRows();
    }

    /** The loop of `__init__`: one row per font, selecting each Times New
        Roman entry as it is added. */
    method FillRows()
      requires rows == 0 && active == -1 && !blocked && !hasCustomFonts && fonts == builtin
      modifies this, abi
      ensures Valid() && !hasCustomFonts
      ensures fonts == old(fonts) && builtin == old(builtin)
      ensures active >= 0 ==> fonts[active] == DefaultFont
      ensures forall j :: 0 <= j < |fonts| && j > active ==> fonts[j] != DefaultFont
      ensures abi.calls == old(abi.calls)
                           + Repeat(SetFontName(DefaultFont), Count(fonts, DefaultFont))
      ensures abi.text == old(abi.text)
    {
      for i := 0 to |fonts|
        invariant rows == i && -1 <= active < i && !blocked && !hasCustomFonts
        invariant fonts == builtin == old(fonts)
        invariant active >= 0 ==> fonts[active] == DefaultFont
        invariant forall j :: 0 <= j < i && j > active ==> fonts[j] != DefaultFont
        invariant abi.calls == old(abi.calls)
                               + Repeat(SetFontName(DefaultFont), Count(fonts[..i], DefaultFont))
        invariant abi.text == old(abi.text)
      {
        assert fonts[..i + 1] == fonts[..i] + [fonts[i]];
        rows := rows + 1;
        if fonts[i] == DefaultFont {
          RepeatOnceMore(SetFontName(DefaultFont), Count(fonts[..i], DefaultFont));
          SetActive(i);
        }
      }
      assert fonts[..|fonts|] == fonts;
    }

    /** `_font_changed_cb`: send the selected font, if any, to the engine. */
    method OnChanged()
      requires -1 <= active < |fonts|
      modifies abi
      ensures abi.calls == old(abi.calls) + if active != -1 then [SetFontName(fonts[active])] else []
      ensures abi.text == old(abi.text)
    {
      if active != -1 {
        abi.Invoke(SetFontName(fonts[active]));
      }
    }

    /** `set_active`: a new selection emits `changed` unless it is blocked. */
    method SetActive(i: int)
      requires -1 <= i < rows <= |fonts| && -1 <= active < |fonts|
      modifies this, abi
      ensures active == i
      ensures fonts == old(fonts) && hasCustomFonts == old(hasCustomFonts) && rows == old(rows)
      ensures blocked == old(blocked) && builtin == old(builtin)
      ensures abi.calls == old(abi.calls)
                           + if i != old(active) && i != -1 && !blocked then [SetFontName(fonts[i])] else []
      ensures abi.text == old(abi.text)
    {
      if i != active {
        active := i;
        if !blocked {
          OnChanged();
        }
      }
    }

    /** The user picks row `i`. */
    method UserSelect(i: nat)
      requires Valid() && i < rows
      modifies this, abi
      ensures Valid() && active == i
      ensures fonts == old(fonts) && hasCustomFonts == old(hasCustomFonts) && builtin == old(builtin)
      ensures abi.calls == old(abi.calls) + if i != old(active) then [SetFontName(fonts[i])] else []
      ensures abi.text == old(abi.text)
    {
      SetActive(i);
    }

    /** `_font_family_cb`: select the first entry equal to the reported font,
        appending it (after the separator, the first time) when it is not
        listed. Nothing is sent to the engine. */
    method OnFontFamily(font: string)
      requires Valid()
      modifies this, abi
      ensures Valid() && builtin == old(builtin)
      ensures old(fonts) <= fonts
      ensures 0 <= active && fonts[active] == font
      ensures font in old(fonts) ==>
                fonts == old(fonts) && hasCustomFonts == old(hasCustomFonts)
                && active == FirstIndex(old(fonts), font)
      ensures font !in old(fonts) ==>
                fonts == old(fonts) + (if old(hasCustomFonts) then [] else [Separator]) + [font]
                && active == |fonts| - 1
      ensures abi.calls == old(abi.calls) && abi.text == old(abi.text)
    {
      var index := -1;
      var i := 0;
      while i < |fonts|
        invariant 0 <= i <= |fonts| && index == -1
        invariant forall j :: 0 <= j < i ==> fonts[j] != font
      {
        if fonts[i] == font {
          index := i;
          break;
        }
        i := i + 1;
      }
      if index == -1 {
        if !hasCustomFonts {
          fonts := fonts + [Separator];
          rows := rows + 1;
          hasCustomFonts := true;
        }
        fonts := fonts + [font];
        rows := rows + 1;
        // the new row is the last one of the tree model
        index := rows - 1;
      } else {
        assert index == FirstIndex(fonts, font);
      }
      if index > -1 {
        blocked := true;
        SetActive(index);
        blocked := false;
      }
    }
  }

  // -----------------------------------------------------------------------
  // Font sizes

  const FontSizes: seq<string> :=
    ["8", "9", "10", "11", "12", "14", "16", "20", "22", "24", "26", "28", "36", "48", "72"]
  const DefaultSize := "12"
  /** The point sizes the entries of FontSizes spell. */
  const SizePoints: seq<int> := [8, 9, 10, 11, 12, 14, 16, 20, 22, 24, 26, 28, 36, 48, 72]

  predicate IsDigits(s: string)
  {
    forall i :: 0 <= i < |s| ==> '0' <= s[i] <= '9'
  }

  function Power10(n: nat): nat
  {
    if n == 0 then 1 else 10 * Power10(n - 1)
  }

  /** Python's `int(s)` on a string of decimal digits: a value of `|s|` digits,
      so below 10 to the `|s|`. */
  function DecimalValue(s: string): (v: nat)
    requires IsDigits(s)
    ensures v < Power10(|s|)
  {
    if |s| == 0 then 0
    else DecimalValue(s[..|s| - 1]) * 10 + (s[|s| - 1] as int - '0' as int)
  }

  /** Entry `i` of FontSizes spells the point size SizePoints[i]. */
  lemma SizeValue(i: nat)
    requires i < |FontSizes|
    ensures IsDigits(FontSizes[i]) && DecimalValue(FontSizes[i]) == SizePoints[i]
  {
    var s := FontSizes[i];
    if |s| == 2 {
      assert s[..1][..0] == [];
      assert DecimalValue(s[..1]) == s[0] as int - '0' as int;
    } else {
      assert s[..0] == [];
    }
  }

  class FontSizeCombo {
    const abi: Canvas
    var active: int
    var blocked: bool

    ghost predicate Valid()
      reads this
    {
      -1 <= active < |FontSizes| && !blocked
    }

    /** `FontSizeCombo.__init__`: 12 point selected, which the connected
        `changed` handler sends to the engine. */
    constructor (abi: Canvas)
      modifies abi
      ensures Valid() && this.abi == abi
      ensures active == 4 && FontSizes[active] == DefaultSize
      ensures abi.calls == old(abi.calls) + [SetFontSize(DefaultSize)]
      ensures abi.text == old(abi.text)
    {
      this.abi := abi;
      active := -1;
      blocked := false;
      new;
      for i := 0 to |FontSizes|
        invariant active == (if i > 4 then 4 else -1) && !blocked && this.abi == abi
        invariant abi.calls == old(abi.calls) + if i > 4 then [SetFontSize(DefaultSize)] else []
        invariant abi.text == old(abi.text)
      {
        if FontSizes[i] == DefaultSize {
          SetActive(i);
        }
      }
    }

    /** `_font_size_changed_cb`. */
    method OnChanged()
      requires -1 <= active < |FontSizes|
      modifies abi
      ensures abi.calls == old(abi.calls) + if active != -1 then [SetFontSize(FontSizes[active])] else []
      ensures abi.text == old(abi.text)
    {
      if active != -1 {
        abi.Invoke(SetFontSize(FontSizes[active]));
      }
    }

    method SetActive(i: int)
      requires -1 <= i < |FontSizes| && -1 <= active < |FontSizes|
      modifies this, abi
      ensures active == i && blocked == old(blocked)
      ensures abi.calls == old(abi.calls)
                           + if i != old(active) && i != -1 && !blocked then [SetFontSize(FontSizes[i])] else []
      ensures abi.text == old(abi.text)
    {
      if i != active {
        active := i;
        if !blocked {
          OnChanged();
        }
      }
    }

    /** The user picks row `i`. */
    method UserSelect(i: nat)
      requires Valid() && i < |FontSizes|
      modifies this, abi
      ensures Valid() && active == i
      ensures abi.calls == old(abi.calls) + if i != old(active) then [SetFontSize(FontSizes[i])] else []
      ensures abi.text == old(abi.text)
    {
      SetActive(i);
    }

    /** `_font_size_cb`: select the first entry whose integer value is the
        reported size; an unlisted size changes nothing. The engine is sent
        nothing either way. */
    method OnFontSize(size: int)
      requires Valid()
      modifies this, abi
      ensures Valid()
      ensures active == if size in SizePoints then FirstIndex(SizePoints, size) else old(active)
      ensures abi.calls == old(abi.calls) && abi.text == old(abi.text)
    {
      var i := 0;
      while i < |FontSizes|
        invariant 0 <= i <= |FontSizes| && active == old(active) && !blocked
        invariant abi.calls == old(abi.calls) && abi.text == old(abi.text)
        invariant forall j :: 0 <= j < i ==> SizePoints[j] != size
      {
        SizeValue(i);
        if DecimalValue(FontSizes[i]) == size {
          assert i == FirstIndex(SizePoints, size);
          blocked := true;
          SetActive(i);
          blocked := false;
          return;
        }
        i := i + 1;
      }
    }
  }

  // -----------------------------------------------------------------------
  // Paragraph styles

  /** A style's internal name, sent to the engine, and the caption shown for it. */
  datatype Style = Style(name: string, caption: string)

  const StyleNames: seq<string> :=
    ["Heading 1", "Heading 2", "Heading 3", "Heading 4", "Bullet List", "Dashed List",
     "Numbered List", "Lower Case List", "Upper Case List", "Block Text", "Normal", "Plain Text"]
  const DefaultStyle := "Normal"
  const StyleSeparator := Style("", "")

  /** The built-in styles, labelled by the translation function. */
  function BuiltinStyles(translate: string -> string): (styles: seq<Style>)
    ensures |styles| == |StyleNames|
    ensures forall i :: 0 <= i < |styles| ==> styles[i].name == StyleNames[i]
  {
    seq(|StyleNames|, i requires 0 <= i < |StyleNames| => Style(StyleNames[i], translate(StyleNames[i])))
  }

  function Names(styles: seq<Style>): (names: seq<string>)
    ensures |names| == |styles| && forall i :: 0 <= i < |styles| ==> names[i] == styles[i].name
  {
    seq(|styles|, i requires 0 <= i < |styles| => styles[i].name)
  }

  /** `None` and `'None'` stand for the Normal style. */
  function NormalisedStyle(reported: Option<string>): (name: string)
    ensures reported == None || reported == Some("None") ==> name == DefaultStyle
    ensures reported != None && reported != Some("None") ==> name == reported.value
  {
    match reported
    case None => DefaultStyle
    case Some(s) => if s == "None" then DefaultStyle else s
  }

  /** Whatever was appended after them, the built-in styles put Normal at
      index 10, and no earlier entry is named Normal. */
  lemma NormalFoundAmongBuiltins(styles: seq<Style>)
    requires |StyleNames| <= |styles|
    requires forall i :: 0 <= i < |StyleNames| ==> styles[i].name == StyleNames[i]
    ensures FirstIndex(Names(styles), DefaultStyle) == 10
  {
    var k := FirstIndex(Names(styles), DefaultStyle);
    assert Names(styles)[10] == DefaultStyle;
    assert forall j :: 0 <= j < 10 ==> Names(styles)[j] == StyleNames[j] != DefaultStyle;
  }

  class StyleCombo {
    const abi: Canvas
    var styles: seq<Style>
    var hasCustomStyles: bool
    var rows: nat
    var active: int
    var blocked: bool
    ghost var builtin: seq<Style>

    ghost predicate Valid()
      reads this
    {
      && rows == |styles|
      && -1 <= active < |styles|
      && !blocked
      && |builtin| == |StyleNames|
      && (forall i :: 0 <= i < |builtin| ==> builtin[i].name == StyleNames[i])
      && |builtin| <= |styles| && styles[..|builtin|] == builtin
      && (hasCustomStyles <==> |builtin| < |styles|)
      && (hasCustomStyles ==> styles[|builtin|] == StyleSeparator)
    }

    /** `StyleCombo.__init__`: Normal selected, which the connected `changed`
        handler sends to the engine. */
    constructor (abi: Canvas, translate: string -> string)
      modifies abi
      ensures Valid() && this.abi == abi && !hasCustomStyles
      ensures styles == builtin == BuiltinStyles(translate)
      ensures active == 10 && styles[active].name == DefaultStyle
      ensures abi.calls == old(abi.calls) + [SetStyle(DefaultStyle)]
      ensures abi.text == old(abi.text)
    {
      this.abi := abi;
      var initial := BuiltinStyles(translate);
      styles := initial;
      builtin := initial;
      hasCustomStyles := false;
      rows := 0;
      active := -1;
      blocked := false;
      new;
      for i := 0 to |styles|
        invariant rows == i && active == (if i > 10 then 10 else -1) && !blocked
        invariant styles == builtin == initial && this.abi == abi && !hasCustomStyles
        invariant abi.calls == old(abi.calls) + if i > 10 then [SetStyle(DefaultStyle)] else []
        invariant abi.text == old(abi.text)
      {
        rows := rows + 1;
        if styles[i].name == DefaultStyle {
          SetActive(i);
        }
      }
    }

    /** `_style_changed_cb`: send the selected style's internal name. */
    method OnChanged()
      requires -1 <= active < |styles|
      modifies abi
      ensures abi.calls == old(abi.calls) + if active != -1 then [SetStyle(styles[active].name)] else []
      ensures abi.text == old(abi.text)
    {
      if active != -1 {
        abi.Invoke(SetStyle(styles[active].name));
      }
    }

    method SetActive(i: int)
      requires -1 <= i < rows <= |styles| && -1 <= active < |styles|
      modifies this, abi
      ensures active == i
      ensures styles == old(styles) && hasCustomStyles == old(hasCustomStyles) && rows == old(rows)
      ensures blocked == old(blocked) && builtin == old(builtin)
      ensures abi.calls == old(abi.calls)
                           + if i != old(active) && i != -1 && !blocked then [SetStyle(styles[i].name)] else []
      ensures abi.text == old(abi.text)
    {
      if i != active {
        active := i;
        if !blocked {
          OnChanged();
        }
      }
    }

    /** The user picks row `i`: the engine gets the style's name, not its label. */
    method UserSelect(i: nat)
      requires Valid() && i < rows
      modifies this, abi
      ensures Valid() && active == i
      ensures styles == old(styles) && hasCustomStyles == old(hasCustomStyles) && builtin == old(builtin)
      ensures abi.calls == old(abi.calls) + if i != old(active) then [SetStyle(styles[i].name)] else []
      ensures abi.text == old(abi.text)
    {
      SetActive(i);
    }

    /** `_style_cb`: select the first style with the reported name (Normal for
        `None`), appending an entry labelled with the name itself (after the
        separator, the first time) when none has it. Nothing is sent to the
        engine. */
    method OnStyleName(reported: Option<string>)
      requires Valid()
      modifies this, abi
      ensures Valid() && builtin == old(builtin)
      ensures old(styles) <= styles
      ensures 0 <= active && styles[active].name == NormalisedStyle(reported)
      ensures NormalisedStyle(reported) in Names(old(styles)) ==>
                styles == old(styles) && hasCustomStyles == old(hasCustomStyles)
                && active == FirstIndex(Names(old(styles)), NormalisedStyle(reported))
      ensures NormalisedStyle(reported) !in Names(old(styles)) ==>
                var name := NormalisedStyle(reported);
                styles == old(styles) + (if old(hasCustomStyles) then [] else [StyleSeparator]) + [Style(name, name)]
                && active == |styles| - 1
      ensures reported == None || reported == Some("None") ==> styles == old(styles) && active == 10
      ensures abi.calls == old(abi.calls) && abi.text == old(abi.text)
    {
      var name := NormalisedStyle(reported);
      NormalFoundAmongBuiltins(styles);
      var index := -1;
      var i := 0;
      while i < |styles|
        invariant 0 <= i <= |styles| && index == -1
        invariant forall j :: 0 <= j < i ==> styles[j].name != name
      {
        if styles[i].name == name {
          index := i;
          break;
        }
        i := i + 1;
      }
      if index == -1 {
        assert name !in Names(styles);
        if !hasCustomStyles {
          styles := styles + [StyleSeparator];
          rows := rows + 1;
          hasCustomStyles := true;
        }
        styles := styles + [Style(name, name)];
        rows := rows + 1;
        index := rows - 1;
      } else {
        assert index == FirstIndex(Names(styles), name);
      }
      if index > -1 {
        blocked := true;
        SetActive(index);
        blocked := false;
      }
    }
  }
}
