/** What the descriptions promise: every marker an extraction splits at is
    one the description asks the model to write, `CodeI` asks for exactly
    three steps, and a list shows its effect. */
module DescriptionFacts {
  import opened Wrappers
  import opened Text
  import opened Slicing
  import opened InstructionTree
  import opened Descriptions
  import CoreUtils
  import Utils
  import PrebuiltUtils

  /** Text contained in the left part of a concatenation is in the whole. */
  lemma ContainsLeft(a: string, b: string, w: string)
    requires Contains(a, w)
    ensures Contains(a + b, w)
  {
    ContainsMiddle("", a, b);
    assert "" + a + b == a + b;
    ContainsTrans(a + b, a, w);
  }

  /** Text contained in the right part of a concatenation is in the whole. */
  lemma ContainsRight(a: string, b: string, w: string)
    requires Contains(b, w)
    ensures Contains(a + b, w)
  {
    ContainsMiddle(a, b, "");
    assert a + b + "" == a + b;
    ContainsTrans(a + b, b, w);
  }

  /** A single-line fragment of a text survives `scope_text`. */
  lemma ScopeContains(body: string, w: string)
    requires Contains(body, w) && '\n' !in w
    ensures Contains(CoreUtils.ScopeText(body), w)
  {
    var r := ReplaceNewlines(body, "\n" + CoreUtils.Indent);
    ContainsReplaced(body, w, "\n" + CoreUtils.Indent);
    ContainsMiddle(" {\n" + CoreUtils.Indent, r, "\n}");
    ContainsTrans(CoreUtils.ScopeText(body), r, w);
  }

  /** A single-line entry of `enumerate_text` shows in its output, in
      both styles and with or without a scope. */
  lemma EnumerateContains(style: Style, texts: seq<Option<string>>, p: nat, w: string, addScope: bool)
    requires p < |texts| && texts[p] == Some(w) && '\n' !in w
    ensures Contains(Enumerate(style, texts, addScope), w)
  {
    var ts := if style == Current then Utils.Continued(texts) else texts;
    if style == Current {
      Utils.PadSingleLine(w, CoreUtils.Indent);
    }
    assert ts[p] == Some(w);
    CoreUtils.NumberedLabel(ts, p);
    var numbered := CoreUtils.Numbered(ts);
    var entry := CoreUtils.NumberedEntry(p + 1, w);
    var k :| 0 <= k < |numbered| && numbered[k] == entry;
    JoinContainsPart(numbered, "\n", k);
    ContainsMiddle(NatToString(p + 1) + ". ", w, "");
    assert entry == NatToString(p + 1) + ". " + w + "";
    ContainsTrans(Join(numbered, "\n"), entry, w);
    if addScope {
      ScopeContains(Join(numbered, "\n"), w);
    }
  }

  /** Where an item's `Write "[[key]]"` step sits among the steps. */
  lemma {:induction false} StepOfItem(style: Style, items: seq<Item>, i: nat) returns (p: nat)
    requires i < |items|
    ensures p < |Steps(style, items)| && Steps(style, items)[p] == Some(WriteMarker(items[i].key))
    decreases |items|
  {
    var init := items[..|items| - 1];
    if i == |items| - 1 {
      p := |Steps(style, init)|;
    } else {
      assert init[i] == items[i];
      p := StepOfItem(style, init, i);
    }
  }

  /** Every key a list or a repetition splits its text at is announced by
      its description as the step `Write "[[key]]"`. */
  lemma AnnouncesItemKey(style: Style, ins: Instruction, i: nat)
    requires (ins.List? || ins.Repetition?) && i < |ins.items| && '\n' !in ins.items[i].key
    ensures Contains(Description(style, ins), WriteMarker(ins.items[i].key))
  {
    var w := WriteMarker(ins.items[i].key);
    var steps := Steps(style, ins.items);
    var p := StepOfItem(style, ins.items, i);
    if ins.List? {
      EnumerateContains(style, steps, p, w, false);
      ContainsLeft(Enumerate(style, steps, false), EffectText(ins.effect, |steps| > 0), w);
      ScopeContains(Enumerate(style, steps, false) + EffectText(ins.effect, |steps| > 0), w);
      ContainsRight(ins.context, CoreUtils.ScopeText(Enumerate(style, steps, false) + EffectText(ins.effect, |steps| > 0)), w);
    } else {
      EnumerateContains(style, steps, p, w, true);
      ContainsRight(ins.quantifier, Enumerate(style, steps, true), w);
    }
  }

  /** The present entries of a list in which every entry is present. */
  lemma {:induction false} PresentAll(texts: seq<Option<string>>)
    requires forall i :: 0 <= i < |texts| ==> texts[i].Some?
    ensures |CoreUtils.Present(texts)| == |texts|
    ensures forall i :: 0 <= i < |texts| ==> CoreUtils.Present(texts)[i] == texts[i].value
    decreases |texts|
  {
    if texts != [] {
      PresentAll(texts[..|texts| - 1]);
    }
  }

  /** Every key of every option of a choice is announced by the choice's
      description: the options are listed with their own descriptions. */
  lemma AnnouncesOptionKey(style: Style, c: Instruction, j: nat, i: nat)
    requires c.Choice? && j < |c.options| && c.options[j].List?
    requires i < |c.options[j].items| && '\n' !in c.options[j].items[i].key
    ensures Contains(Description(style, c), WriteMarker(c.options[j].items[i].key))
  {
    var w := WriteMarker(c.options[j].items[i].key);
    var d := Description(style, c.options[j]);
    AnnouncesItemKey(style, c.options[j], i);
    var descriptions := OptionDescriptions(style, c.options);
    PresentAll(descriptions);
    var bullets := Prefixed("- ", CoreUtils.Present(descriptions));
    assert bullets[j] == "- " + d;
    JoinContainsPart(bullets, "\n", j);
    ContainsRight("- ", d, w);
    ContainsTrans(Join(bullets, "\n"), bullets[j], w);
    ScopeContains(Join(bullets, "\n"), w);
    ContainsRight(c.context, PrebuiltUtils.ListText(descriptions, true), w);
  }

  /** `CodeI.describe()`: "Do the following" and a scope holding exactly
      three numbered steps: open the fence with the language, do the task,
      close the fence. The newer helpers indent the task's continuation
      lines under its step. */
  lemma CodeSteps(style: Style, text: string, language: string)
    requires '\n' !in language
    ensures var task := if style == Current then Utils.PadText(text, CoreUtils.Indent, false) else text;
      Description(style, Code(text, language))
        == "Do the following" + CoreUtils.ScopeText("1. " + OpenFence(language) + "\n2. " + task + "\n3. " + CloseFence)
  {
    var task := if style == Current then Utils.PadText(text, CoreUtils.Indent, false) else text;
    var texts := [Some(OpenFence(language)), Some(text), Some(CloseFence)];
    var ts := [Some(OpenFence(language)), Some(task), Some(CloseFence)];
    if style == Current {
      ContinuedThree(OpenFence(language), text, CloseFence);
    }
    assert Enumerate(style, texts, true) == CoreUtils.Enumeration(ts, true);
    ThreeSteps(ts, OpenFence(language), task, CloseFence);
  }

  /** The newer helpers indent only the middle one of three entries when
      the outer two are single lines. */
  lemma ContinuedThree(a: string, b: string, c: string)
    requires '\n' !in a && '\n' !in c
    ensures Utils.Continued([Some(a), Some(b), Some(c)])
      == [Some(a), Some(Utils.PadText(b, CoreUtils.Indent, false)), Some(c)]
  {
    Utils.PadSingleLine(a, CoreUtils.Indent);
    Utils.PadSingleLine(c, CoreUtils.Indent);
  }

  /** `enumerate_text(a, b, c)` of three single entries. */
  lemma ThreeSteps(ts: seq<Option<string>>, a: string, b: string, c: string)
    requires ts == [Some(a), Some(b), Some(c)]
    ensures CoreUtils.Enumeration(ts, true) == CoreUtils.ScopeText("1. " + a + "\n2. " + b + "\n3. " + c)
  {
    var none: seq<Option<string>> := [];
    assert ts == none + [Some(a)] + [Some(b)] + [Some(c)];
    assert NatToString(1) == "1" && NatToString(2) == "2" && NatToString(3) == "3";
    var e1, e2, e3 := "1. " + a, "2. " + b, "3. " + c;
    NumberedStep(none, a);
    NumberedStep(none + [Some(a)], b);
    NumberedStep(none + [Some(a)] + [Some(b)], c);
    assert CoreUtils.NumberedEntry(1, a) == e1;
    assert CoreUtils.NumberedEntry(2, b) == e2;
    assert CoreUtils.NumberedEntry(3, c) == e3;
    JoinThree(e1, e2, e3);
    assert CoreUtils.Numbered(ts) == [e1, e2, e3];
    assert e1 + "\n" + e2 + "\n" + e3 == "1. " + a + "\n2. " + b + "\n3. " + c;
  }

  /** Three lines joined by newlines. */
  lemma JoinThree(e1: string, e2: string, e3: string)
    ensures Join([e1, e2, e3], "\n") == e1 + "\n" + e2 + "\n" + e3
  {
    assert [e1, e2, e3][1..] == [e2, e3] && [e2, e3][1..] == [e3];
    assert Join([e3], "\n") == e3;
    assert Join([e2, e3], "\n") == e2 + "\n" + e3;
    assert e1 + "\n" + (e2 + "\n" + e3) == e1 + "\n" + e2 + "\n" + e3;
  }

  /** One more present entry adds one numbered entry at the end. */
  lemma NumberedStep(texts: seq<Option<string>>, t: string)
    ensures CoreUtils.Numbered(texts + [Some(t)]) == CoreUtils.Numbered(texts) + [CoreUtils.NumberedEntry(|texts| + 1, t)]
  {
    var u := texts + [Some(t)];
    assert u != [] && |u| - 1 == |texts|;
    assert u[|u| - 1] == Some(t) && u[..|u| - 1] == texts;
  }

  /** A list with an effect shows `-> ` followed by the effect's first
      line inside its scope. */
  lemma ShowsEffect(style: Style, l: Instruction)
    requires l.List? && l.effect.Some?
    ensures Contains(Description(style, l), "-> " + Lines(l.effect.value)[0])
  {
    var steps := Steps(style, l.items);
    var w := "-> " + Lines(l.effect.value)[0];
    var effect := EffectText(l.effect, |steps| > 0);
    EffectShowsFirstLine(l.effect.value, |steps| > 0);
    ArrowLineHasNoNewline(l.effect.value);
    var body := Enumerate(style, steps, false) + effect;
    ContainsRight(Enumerate(style, steps, false), effect, w);
    ScopeContains(body, w);
    ContainsRight(l.context, CoreUtils.ScopeText(body), w);
  }

  /** The effect text holds `-> ` and the effect's first line. */
  lemma EffectShowsFirstLine(e: string, afterSteps: bool)
    ensures Contains(EffectText(Some(e), afterSteps), "-> " + Lines(e)[0])
  {
    var first, padded := Lines(e)[0], Utils.PadText(e, CoreUtils.Indent, false);
    var lead := if afterSteps then "\n" else "";
    var text := EffectText(Some(e), afterSteps);
    PadStartsWithFirstLine(e);
    ArrowBeforeFirst(lead, first, padded);
    assert text == lead + ("-> " + padded) by {
      assert text == lead + "-> " + padded;
    }
  }

  /** The arrow and the first line of a text hold no newline. */
  lemma ArrowLineHasNoNewline(e: string)
    ensures '\n' !in "-> " + Lines(e)[0]
  {
    LinesHaveNoNewline(e);
    assert '\n' !in Lines(e)[0];
  }

  /** `-> ` and the start of a text, after a lead, contains `-> ` and that start. */
  lemma ArrowBeforeFirst(lead: string, first: string, padded: string)
    requires |first| <= |padded| && padded == first + padded[|first|..]
    ensures Contains(lead + ("-> " + padded), "-> " + first)
  {
    var more := padded[|first|..];
    assert lead + ("-> " + padded) == lead + ("-> " + first) + more;
    ContainsMiddle(lead, "-> " + first, more);
  }

  /** Padding without the first line keeps the first line as it is. */
  lemma PadStartsWithFirstLine(e: string)
    ensures var first, padded := Lines(e)[0], Utils.PadText(e, CoreUtils.Indent, false);
      |first| <= |padded| && padded == first + padded[|first|..]
  {
    var padded := Utils.PadText(e, CoreUtils.Indent, false);
    var ls := Lines(e);
    JoinLines(e, "\n" + CoreUtils.Indent);
    assert padded == Join(ls, "\n" + CoreUtils.Indent);
    var more := if |ls| == 1 then "" else "\n" + CoreUtils.Indent + Join(ls[1..], "\n" + CoreUtils.Indent);
    assert padded == ls[0] + more;
  }

  /** The two styles describe alike when no step spans several lines. */
  lemma StylesAgreeOnSingleLines(texts: seq<Option<string>>, addScope: bool)
    requires forall i :: 0 <= i < |texts| && texts[i].Some? ==> '\n' !in texts[i].value
    ensures Enumerate(Current, texts, addScope) == Enumerate(Older, texts, addScope)
  {
    Utils.EnumerationsAgree(texts, addScope);
  }

  /** `IList.describe()` as written raises for every list with an effect,
      where the corrected description shows the effect. */
  lemma EffectRaisesAsWritten(context: string, items: seq<Item>, effect: string)
    requires items != []
    ensures IList(context, items, Some(effect)).Some?
    ensures var l := IList(context, items, Some(effect)).value;
      ListDescriptionAsWritten(l.context, Steps(Older, l.items), l.effect).None?
      && Contains(Description(Older, l), "-> " + Lines(effect)[0])
  {
    ShowsEffect(Older, IList(context, items, Some(effect)).value);
  }

  /** Without an effect the source's `IList.describe()` already returns
      what the corrected description gives. */
  lemma AsWrittenWithoutEffect(context: string, steps: seq<Option<string>>)
    ensures ListDescriptionAsWritten(context, steps, None) == Some(ListDescription(Older, context, steps, None))
  {
  }
}
