/** The prompt indicator of src/shell/prompt.rs: `[sx:<mode>] `, optionally
    wrapped in an ANSI colour chosen by the network mode. */
module Prompt {
  import opened Schema
  import opened Text

  /** `PromptStyle`; `Default` is the derived default. */
  datatype PromptStyle = Default | Plain | Colored

  /** The SGR sequences of the colours module. */
  const Red: string := [ESC] + "[0;31m"
  const Yellow: string := [ESC] + "[0;33m"
  const Green: string := [ESC] + "[0;32m"
  const Reset: string := [ESC] + "[0m"

  /** Red when offline, green when online, yellow for localhost only. */
  function ModeColor(mode: NetworkMode): string
  {
    match mode
    case Offline => Red
    case Online => Green
    case Localhost => Yellow
  }

  /** `[sx:<mode>]`. */
  function Tag(mode: NetworkMode): string
  {
    "[sx:" + NetworkModeName(mode) + "]"
  }

  /** The uncoloured indicator, `[sx:<mode>] `. */
  function PlainIndicator(mode: NetworkMode): string
  {
    Tag(mode) + " "
  }

  /** `format_prompt_indicator`: the plain text, or for `Default` and `Colored`
      the same text with the colour before it and a reset before the final space. */
  function FormatPromptIndicator(mode: NetworkMode, style: PromptStyle): (r: string)
    ensures r != [] && r[|r| - 1] == ' '
    ensures ESC in r <==> style != Plain
  {
    assert ESC !in NetworkModeName(mode);
    assert ModeColor(mode)[0] == ESC;
    match style
    case Plain => PlainIndicator(mode)
    case Default | Colored => ModeColor(mode) + Tag(mode) + Reset + " "
  }

  /** The coloured styles are the plain text with the colour inserted in
      front and the reset inserted before the final space; `Default` and
      `Colored` agree. */
  lemma ColoredWrapsPlain(mode: NetworkMode, style: PromptStyle)
    requires style != Plain
    ensures var p := PlainIndicator(mode);
      FormatPromptIndicator(mode, style) == ModeColor(mode) + p[..|p| - 1] + Reset + " "
    ensures FormatPromptIndicator(mode, style) == FormatPromptIndicator(mode, Colored)
  {
    var t := Tag(mode);
    assert (t + " ")[..|t|] == t;
  }

  /** The coloured styles begin with the colour's escape sequence. */
  lemma ColoredStartsWithColor(mode: NetworkMode, style: PromptStyle)
    requires style != Plain
    ensures StartsWith(FormatPromptIndicator(mode, style), ModeColor(mode))
    ensures FormatPromptIndicator(mode, style)[0] == ESC
  {
    var c := ModeColor(mode);
    var rest := Tag(mode) + Reset + " ";
    assert FormatPromptIndicator(mode, style) == c + rest;
    assert (c + rest)[..|c|] == c;
  }

  /** Every style names the mode, as `sx:<mode>`. */
  lemma IndicatorNamesMode(mode: NetworkMode, style: PromptStyle)
    ensures Contains(FormatPromptIndicator(mode, style), "sx:" + NetworkModeName(mode))
  {
    var sub := "sx:" + NetworkModeName(mode);
    var t := Tag(mode);
    assert t == "[" + sub + "]";
    ContainsMiddle("[", sub, "]");
    if style == Plain {
      assert PlainIndicator(mode) == "" + t + " ";
      ContainsWithin("", t, " ", sub);
    } else {
      var c := ModeColor(mode);
      assert c + t + Reset + " " == c + t + (Reset + " ");
      ContainsWithin(c, t, Reset + " ", sub);
    }
  }

  /** Different modes give different indicators, in every style. */
  lemma IndicatorsDistinct(m1: NetworkMode, m2: NetworkMode, style: PromptStyle)
    requires m1 != m2
    ensures FormatPromptIndicator(m1, style) != FormatPromptIndicator(m2, style)
  {
    if style == Plain {
      var n1, n2 := NetworkModeName(m1), NetworkModeName(m2);
      assert n1[0] != n2[0] || n1[1] != n2[1];
      assert PlainIndicator(m1)[4] == n1[0] && PlainIndicator(m1)[5] == n1[1];
      assert PlainIndicator(m2)[4] == n2[0] && PlainIndicator(m2)[5] == n2[1];
    } else {
      ColoredStartsWithColor(m1, style);
      ColoredStartsWithColor(m2, style);
      assert ModeColor(m1)[5] != ModeColor(m2)[5];
      assert FormatPromptIndicator(m1, style)[5] == ModeColor(m1)[5];
      assert FormatPromptIndicator(m2, style)[5] == ModeColor(m2)[5];
    }
  }
}
