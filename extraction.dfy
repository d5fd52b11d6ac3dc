/** `extract(data)` of the instruction nodes: the same code in
    `easy_prompting/prebuilt/instructions.py`,
    `easy_prompting/prebuilt/_instructions.py` and
    `easy_prompting/_instruction.py` (the older list has no `add_stop`). */
module Extraction {
  import opened Wrappers
  import opened Text
  import opened Slicing
  import opened InstructionTree
  import PrebuiltUtils

  /** What `extract(data)` returns, or the `ExtractionError` it raises. */
  function Extracted(ins: Instruction, data: string): Result<Value, ExtractErr>
    requires WellFormed(ins)
    decreases ins, 3, 0
  {
    match ins
    case Data(_, f) =>
      var v := f(data);
      if v.None? then Failure(ExtractorFailed(data)) else Success(v.value)
    case Code(_, _) =>
      var c := PrebuiltUtils.FirstBlock(data);
      if c.Failure? then Failure(ExtractorFailed(data)) else Success(Str(c.value))
    case List(_, items, addStop, _) =>
      var s := Slices(data, Keys(items));
      if s.Failure? then Failure(s.error)
      else
        var vs := ItemValues(items, s.value, 0);
        if vs.Failure? then Failure(vs.error)
        else Success(Items(if addStop then TakePy(vs.value, -1) else vs.value))
    case Repetition(_, items) =>
      if !Contains(data, Marker(items[0].key)) then Success(Items([]))
      else
        var gs := Groups(items, data);
        if gs.Failure? then Failure(gs.error) else Success(Items(gs.value))
    case Choice(_, options) => ChoiceExtracted(options, data, 0)
  }

  /** The value of one item: the raw slice, or the nested extraction. */
  function ItemValue(item: Item, slice: string): Result<Value, ExtractErr>
    requires item.value.Some? ==> WellFormed(item.value.value)
    decreases item, 2, 0
  {
    if item.value.None? then Success(Str(slice)) else Extracted(item.value.value, slice)
  }

  /** The values of the items from index `j` on, each from its slice; the
      first failure in item order wins. */
  function ItemValues(items: seq<Item>, slices: seq<string>, j: nat): (r: Result<seq<Value>, ExtractErr>)
    requires |items| <= |slices| && ItemsWellFormed(items)
    ensures r.Success? ==> |r.value| == |items| - j || j > |items|
    decreases items, 1, |items| - j
  {
    if j >= |items| then Success([])
    else
      var v := ItemValue(items[j], slices[j]);
      if v.Failure? then Failure(v.error)
      else
        var rest := ItemValues(items, slices, j + 1);
        if rest.Failure? then Failure(rest.error) else Success([v.value] + rest.value)
  }

  /** The slices of one pass of `RepetitionI.extract`: those of the list,
      except that the last one stops before the next first marker. */
  function GroupSlices(heads: seq<string>, tail: string, first: string): seq<string>
    requires first != []
  {
    DropPy(heads, 1) + [CutAt(tail, first)]
  }

  /** The groups of `RepetitionI.extract`, from a text that holds the first
      marker: one pass per group, until the first marker no longer occurs
      in what is left. */
  function Groups(items: seq<Item>, data: string): (r: Result<seq<Value>, ExtractErr>)
    requires |items| >= 1 && ItemsWellFormed(items)
    ensures r.Success? ==> |r.value| >= 1
    decreases items, 2, |data|
  {
    var first := Marker(items[0].key);
    var split := SplitAtMarkers(data, Keys(items));
    if split.Failure? then Failure(split.error)
    else
      var rest := split.value.1;
      var vs := ItemValues(items, GroupSlices(split.value.0, rest, first), 0);
      if vs.Failure? then Failure(vs.error)
      else if !Contains(rest, first) then Success([Items(vs.value)])
      else
        var more := Groups(items, rest);
        if more.Failure? then Failure(more.error) else Success([Items(vs.value)] + more.value)
  }

  /** The markers of the options' first keys. */
  function OptionMarkers(options: seq<Instruction>): (ms: seq<string>)
    requires forall i :: 0 <= i < |options| ==> options[i].List? && |options[i].items| >= 1
    ensures |ms| == |options|
  {
    seq(|options|, i requires 0 <= i < |options| => Marker(options[i].items[0].key))
  }

  /** `ChoiceI.extract` from option `j` on: the first option in declared
      order whose first marker occurs anywhere in the text is extracted and
      returned with its first key. */
  function ChoiceExtracted(options: seq<Instruction>, data: string, j: nat): Result<Value, ExtractErr>
    requires forall i :: 0 <= i < |options| ==> options[i].List? && |options[i].items| >= 1 && WellFormed(options[i])
    decreases options, 1, |options| - j
  {
    if j >= |options| then Failure(NoValidKey(OptionMarkers(options), data))
    else
      var key := options[j].items[0].key;
      if Contains(data, Marker(key)) then
        var v := Extracted(options[j], data);
        if v.Failure? then Failure(v.error) else Success(Chosen(key, v.value))
      else ChoiceExtracted(options, data, j + 1)
  }

  /** A result of values with `done` put in front of them. */
  function Prepend(done: seq<Value>, r: Result<seq<Value>, ExtractErr>): Result<seq<Value>, ExtractErr> {
    if r.Failure? then Failure(r.error) else Success(done + r.value)
  }

  /** Moving one value from the result to the front list. */
  lemma PrependAppend(done: seq<Value>, v: Value, r: Result<seq<Value>, ExtractErr>)
    ensures Prepend(done, Prepend([v], r)) == Prepend(done + [v], r)
  {
    if r.Success? {
      assert done + ([v] + r.value) == done + [v] + r.value;
    }
  }

  /** `extract(data)`: the loops of the source over the items, the passes
      and the options, with nested instructions extracted recursively. */
  method Extract(ins: Instruction, data: string) returns (r: Result<Value, ExtractErr>)
    requires WellFormed(ins)
    ensures r == Extracted(ins, data)
    decreases ins, 3
  {
    match ins
    case Data(_, f) =>
      var v := f(data);
      if v.None? {
        r := Failure(ExtractorFailed(data));
      } else {
        r := Success(v.value);
      }
    case Code(_, _) =>
      var c := PrebuiltUtils.ExtractCode(data);
      if c.Failure? {
        r := Failure(ExtractorFailed(data));
      } else {
        r := Success(Str(c.value));
      }
    case List(_, _, _, _) => r := ExtractList(ins, data);
    case Repetition(_, _) => r := ExtractRepetition(ins, data);
    case Choice(_, _) => r := ExtractChoice(ins, data);
  }

  /** `ListI.extract`: split at the markers, extract every item, and drop
      the stop item's value when there is one. */
  method ExtractList(ins: Instruction, data: string) returns (r: Result<Value, ExtractErr>)
    requires ins.List? && WellFormed(ins)
    ensures r == Extracted(ins, data)
    decreases ins, 2
  {
    var items := ins.items;
    var split := SplitKeys(data, Keys(items));
    if split.Failure? {
      return Failure(split.error);
    }
    var extraction := DropPy(split.value.0, 1) + [split.value.1];
    var values := ExtractEach(items, extraction);
    if values.Failure? {
      return Failure(values.error);
    }
    if ins.addStop {
      r := Success(Items(TakePy(values.value, -1)));
    } else {
      r := Success(Items(values.value));
    }
  }

  /** `RepetitionI.extract`: one pass per group while the first marker
      still occurs in what is left. */
  method ExtractRepetition(ins: Instruction, data: string) returns (r: Result<Value, ExtractErr>)
    requires ins.Repetition? && WellFormed(ins)
    ensures r == Extracted(ins, data)
    decreases ins, 2
  {
    var items := ins.items;
    var firstKey := Marker(items[0].key);
    if !Contains(data, firstKey) {
      return Success(Items([]));
    }
    var rest := data;
    var extractions: seq<Value> := [];
    assert Groups(items, data) == Prepend([], Groups(items, data)) by {
      var g := Groups(items, data);
      if g.Success? { assert [] + g.value == g.value; }
    }
    while true
      invariant Contains(rest, firstKey)
      invariant Groups(items, data) == Prepend(extractions, Groups(items, rest))
      decreases |rest|
    {
      var split := SplitKeys(rest, Keys(items));
      if split.Failure? {
        return Failure(split.error);
      }
      var tail := split.value.1;
      var extraction := PassSlices(split.value.0, tail, firstKey);
      var values := ExtractEach(items, extraction);
      GroupsUnfold(items, rest, split, values);
      if values.Failure? {
        return Failure(values.error);
      }
      PrependAppend(extractions, Items(values.value), Groups(items, tail));
      extractions := extractions + [Items(values.value)];
      if !Contains(tail, firstKey) {
        return Success(Items(extractions));
      }
      rest := tail;
    }
  }

  /** The slices of one pass: those of the list, with the last one cut
      before the next first marker when there is one. */
  method PassSlices(heads: seq<string>, tail: string, firstKey: string) returns (extraction: seq<string>)
    requires firstKey != []
    ensures extraction == GroupSlices(heads, tail, firstKey)
  {
    extraction := DropPy(heads, 1) + [tail];
    if Contains(tail, firstKey) {
      extraction := extraction[|extraction| - 1 := SplitOnce(tail, firstKey).value.0];
    }
  }

  /** One pass of `Groups`, given the split of the text and the values of
      the pass. */
  lemma GroupsUnfold(items: seq<Item>, data: string, split: Result<(seq<string>, string), ExtractErr>,
                     vs: Result<seq<Value>, ExtractErr>)
    requires |items| >= 1 && ItemsWellFormed(items)
    requires split == SplitAtMarkers(data, Keys(items)) && split.Success?
    requires vs == ItemValues(items, GroupSlices(split.value.0, split.value.1, Marker(items[0].key)), 0)
    ensures vs.Failure? ==> Groups(items, data) == Failure(vs.error)
    ensures vs.Success? && !Contains(split.value.1, Marker(items[0].key)) ==>
      Groups(items, data) == Success([Items(vs.value)])
    ensures vs.Success? && Contains(split.value.1, Marker(items[0].key)) ==>
      Groups(items, data) == Prepend([Items(vs.value)], Groups(items, split.value.1))
  {
  }

  /** `ChoiceI.extract`: the first option, in declared order, whose first
      marker occurs in the text. */
  method ExtractChoice(ins: Instruction, data: string) returns (r: Result<Value, ExtractErr>)
    requires ins.Choice? && WellFormed(ins)
    ensures r == Extracted(ins, data)
    decreases ins, 2
  {
    var options := ins.options;
    for j := 0 to |options|
      invariant ChoiceExtracted(options, data, 0) == ChoiceExtracted(options, data, j)
    {
      var key := Marker(options[j].items[0].key);
      if Contains(data, key) {
        var v := Extract(options[j], data);
        if v.Failure? {
          return Failure(v.error);
        }
        return Success(Chosen(options[j].items[0].key, v.value));
      }
    }
    r := Failure(NoValidKey(OptionMarkers(options), data));
  }

  /** The loop `for i, item in enumerate(items)` that turns each slice into
      the item's value. */
  method ExtractEach(items: seq<Item>, extraction: seq<string>) returns (r: Result<seq<Value>, ExtractErr>)
    requires |items| <= |extraction| && ItemsWellFormed(items)
    ensures r == ItemValues(items, extraction, 0)
    decreases items, 2
  {
    var out: seq<Value> := [];
    assert ItemValues(items, extraction, 0) == Prepend([], ItemValues(items, extraction, 0)) by {
      var g := ItemValues(items, extraction, 0);
      if g.Success? { assert [] + g.value == g.value; }
    }
    for i := 0 to |items|
      invariant ItemValues(items, extraction, 0) == Prepend(out, ItemValues(items, extraction, i))
    {
      var v: Result<Value, ExtractErr>;
      if items[i].value.None? {
        v := Success(Str(extraction[i]));
      } else {
        v := Extract(items[i].value.value, extraction[i]);
      }
      if v.Failure? {
        return Failure(v.error);
      }
      PrependAppend(out, v.value, ItemValues(items, extraction, i + 1));
      out := out + [v.value];
    }
    assert out + [] == out;
    r := Success(out);
  }
}
