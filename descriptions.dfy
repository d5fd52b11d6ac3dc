/** `describe()` of the instruction nodes. The nodes of
    `easy_prompting/prebuilt/instructions.py` build their text with the
    helpers of `easy_prompting/utils.py`, which indent the continuation
    lines of a numbered entry; those of `easy_prompting/_instruction.py` and
    `easy_prompting/prebuilt/_instructions.py` use the helpers of
    `easy_prompting/_utils.py`, which do not. */
module Descriptions {
  import opened Wrappers
  import opened Text
  import opened Slicing
  import opened InstructionTree
  import CoreUtils
  import Utils
  import PrebuiltUtils

  /** Which helper module a node's `describe` calls. */
  datatype Style =
    | Current  // `easy_prompting/utils.py`, used by `prebuilt/instructions.py`
    | Older    // `easy_prompting/_utils.py`, used by `_instruction.py` and `prebuilt/_instructions.py`

  /** `enumerate_text(*texts, add_scope)` of the style's helper module. */
  function Enumerate(style: Style, texts: seq<Option<string>>, addScope: bool): string {
    if style == Current then CoreUtils.Enumeration(Utils.Continued(texts), addScope)
    else CoreUtils.Enumeration(texts, addScope)
  }

  /** The step `Write "[[key]]"` of a list or a repetition. */
  function WriteMarker(key: string): (w: string)
    ensures '\n' !in key ==> '\n' !in w
  {
    "Write \"" + Marker(key) + "\""
  }

  /** The first step of `CodeI.describe`: `Write "```language\n"`, with a
      backslash and an `n`, not a newline. */
  function OpenFence(language: string): string {
    "Write \"```" + language + "\\n\""
  }

  /** The last step of `CodeI.describe`: `Write "\n```"`. */
  const CloseFence: string := "Write \"\\n```\""

  /** `CodeI.describe()`: three numbered steps in a scope. */
  function CodeDescription(style: Style, text: string, language: string): string {
    "Do the following" + Enumerate(style, [Some(OpenFence(language)), Some(text), Some(CloseFence)], true)
  }

  /** The effect line of a list: `-> ` and the effect, its continuation
      lines indented as `pad_text(effect, pad_first=False)` does, after a
      newline when there are steps before it. */
  function EffectText(effect: Option<string>, afterSteps: bool): string {
    if effect.None? then ""
    else (if afterSteps then "\n" else "") + "-> " + Utils.PadText(effect.value, CoreUtils.Indent, false)
  }

  /** `ListI.describe()` / `IList.describe()` once the steps are known: the
      context, then the numbered steps and the effect in a scope. */
  function ListDescription(style: Style, context: string, steps: seq<Option<string>>, effect: Option<string>): string {
    context + CoreUtils.ScopeText(Enumerate(style, steps, false) + EffectText(effect, |steps| > 0))
  }

  /** `IList.describe()` as `easy_prompting/_instruction.py` writes it: the
      helper `pad_text` of `easy_prompting/_utils.py` has no `pad_first`
      parameter, so a list with an effect raises `TypeError` (`None`). */
  function ListDescriptionAsWritten(context: string, steps: seq<Option<string>>, effect: Option<string>): (r: Option<string>)
    ensures r.None? <==> effect.Some?
  {
    if effect.Some? then None
    else Some(context + CoreUtils.ScopeText(CoreUtils.Enumeration(steps, false) + ""))
  }

  /** `RepetitionI.describe()` once the steps are known. */
  function RepetitionDescription(style: Style, quantifier: string, steps: seq<Option<string>>): string {
    quantifier + Enumerate(style, steps, true)
  }

  /** `ChoiceI.describe()` once the options' descriptions are known: a
      scoped bullet list. */
  function ChoiceDescription(context: string, descriptions: seq<Option<string>>): string {
    context + PrebuiltUtils.ListText(descriptions, true)
  }

  /** What `describe()` returns. */
  function Description(style: Style, ins: Instruction): string
    decreases ins, 2
  {
    match ins
    case Data(text, _) => text
    case Code(text, language) => CodeDescription(style, text, language)
    case List(context, items, _, effect) => ListDescription(style, context, Steps(style, items), effect)
    case Repetition(quantifier, items) => RepetitionDescription(style, quantifier, Steps(style, items))
    case Choice(context, options) => ChoiceDescription(context, OptionDescriptions(style, options))
  }

  /** The steps of one item: its `Write "[[key]]"`, then the nested
      instruction's description when there is one. */
  function ItemSteps(style: Style, item: Item): (r: seq<Option<string>>)
    decreases item, 1
  {
    [Some(WriteMarker(item.key))] + if item.value.Some? then [Some(Description(style, item.value.value))] else []
  }

  /** The steps of the items, in order. */
  function Steps(style: Style, items: seq<Item>): (r: seq<Option<string>>)
    ensures |r| >= |items|
    ensures forall i :: 0 <= i < |r| ==> r[i].Some?
    decreases items, 1
  {
    if items == [] then []
    else Steps(style, items[..|items| - 1]) + ItemSteps(style, items[|items| - 1])
  }

  /** The descriptions of the options, in order. */
  function OptionDescriptions(style: Style, options: seq<Instruction>): (r: seq<Option<string>>)
    ensures |r| == |options|
    ensures forall i :: 0 <= i < |options| ==> r[i] == Some(Description(style, options[i]))
    decreases options, 1
  {
    if options == [] then []
    else OptionDescriptions(style, options[..|options| - 1]) + [Some(Description(style, options[|options| - 1]))]
  }

  /** `enumerate_text` of the style, the loop with its counter. */
  method EnumerateText(style: Style, texts: seq<Option<string>>, addScope: bool) returns (r: string)
    ensures r == Enumerate(style, texts, addScope)
  {
    if style == Current {
      r := Utils.EnumerateText(texts, addScope);
    } else {
      r := CoreUtils.EnumerateText(texts, addScope);
    }
  }

  /** `describe()`: the loops of the source that append the steps and the
      options' descriptions, with nested instructions described
      recursively. */
  method Describe(style: Style, ins: Instruction) returns (r: string)
    ensures r == Description(style, ins)
    decreases ins, 2
  {
    match ins
    case Data(text, _) =>
      r := text;
    case Code(text, language) =>
      var steps := EnumerateText(style, [Some(OpenFence(language)), Some(text), Some(CloseFence)], true);
      r := "Do the following" + steps;
    case List(context, items, _, effect) =>
      var steps := DescribeItems(style, items);
      var effectText := "";
      if effect.Some? {
        if |steps| > 0 {
          effectText := effectText + "\n";
        }
        effectText := effectText + "-> " + Utils.PadText(effect.value, CoreUtils.Indent, false);
      }
      assert effectText == EffectText(effect, |steps| > 0);
      var enumerated := EnumerateText(style, steps, false);
      r := context + CoreUtils.ScopeText(enumerated + effectText);
    case Repetition(quantifier, items) =>
      var steps := DescribeItems(style, items);
      var enumerated := EnumerateText(style, steps, true);
      r := quantifier + enumerated;
    case Choice(context, options) =>
      var descriptions: seq<Option<string>> := [];
      for j := 0 to |options|
        invariant descriptions == OptionDescriptions(style, options[..j])
      {
        assert options[..j + 1][..j] == options[..j];
        var d := Describe(style, options[j]);
        descriptions := descriptions + [Some(d)];
      }
      assert options[..|options|] == options;
      r := context + PrebuiltUtils.ListText(descriptions, true);
  }

  /** The loop over the items that appends `Write "[[key]]"` and the nested
      description. */
  method DescribeItems(style: Style, items: seq<Item>) returns (steps: seq<Option<string>>)
    ensures steps == Steps(style, items)
    decreases items, 1
  {
    steps := [];
    for k := 0 to |items|
      invariant steps == Steps(style, items[..k])
    {
      assert items[..k + 1][..k] == items[..k];
      steps := steps + [Some(WriteMarker(items[k].key))];
      if items[k].value.Some? {
        var d := Describe(style, items[k].value.value);
        steps := steps + [Some(d)];
      }
    }
    assert items[..|items|] == items;
  }
}
