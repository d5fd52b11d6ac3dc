/** An option the older `easy_prompt` prompter offers the model
    (`easy_prompt/option.py`): a name, the condition under which to choose
    it, the action to take and its effect. */
module LegacyOption {
  import opened Text

  /** `Option.seperator`: what the model writes after the chosen name. */
  const Separator: string := ":"

  /** `Option.stop`: what the model writes when it is done. */
  const Stop: string := "(done)"

  datatype PromptOption = PromptOption(name: string, condition: string, action: string, effect: string)

  /** Step 1 of a description: write the option's name and the separator. */
  function NameStep(name: string): string {
    "1. Write \"" + name + Separator + "\""
  }

  /** Step 3 of every description: write the stop marker. */
  const StopStep: string := "3. Write \"" + Stop + "\""

  /** `get_description()`: the condition followed directly by the four
      numbered steps, with nothing between the parts. */
  function Description(o: PromptOption): (r: string)
    ensures |r| == |o.condition| + |o.name| + |o.action| + |o.effect| + 35
    ensures r[..|o.condition|] == o.condition
  {
    o.condition + NameStep(o.name) + "2. " + o.action + StopStep + "4. " + o.effect
  }

  /** The description is exactly condition, name step, action step, stop
      step and effect step, each at its own offset. */
  lemma DescriptionParts(o: PromptOption)
    ensures var r, c := Description(o), |o.condition|;
      var n := c + |o.name| + 12;
      var a := n + |o.action| + 3;
      r[c..n] == NameStep(o.name) && r[n..a] == "2. " + o.action
      && r[a..a + 17] == StopStep && r[a + 17..] == "4. " + o.effect
  {
    var r, c := Description(o), |o.condition|;
    var n := c + |o.name| + 12;
    var a := n + |o.action| + 3;
    assert r == o.condition + NameStep(o.name) + ("2. " + o.action) + StopStep + ("4. " + o.effect);
  }

  /** Every description tells the model to write the stop marker that
      `get_choice` passes as the stop string. */
  lemma DescriptionAsksForStop(o: PromptOption)
    ensures Contains(Description(o), "Write \"" + Stop + "\"")
  {
    var r := Description(o);
    var c := |o.condition| + |o.name| + 12 + |o.action| + 3;
    DescriptionParts(o);
    assert r[c + 3..c + 17] == "Write \"" + Stop + "\"";
    assert OccursAt(r, "Write \"" + Stop + "\"", c + 3);
  }
}
