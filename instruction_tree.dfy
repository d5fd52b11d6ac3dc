/** The instruction nodes of `easy_prompting/prebuilt/instructions.py`,
    `easy_prompting/prebuilt/_instructions.py` and
    `easy_prompting/_instruction.py` as one tree: the two sets of classes
    have the same fields (the older `IList` has no `add_stop`), and their
    `extract` methods are the same code. */
module InstructionTree {
  import opened Wrappers
  import opened Text
  import opened Slicing

  /** An instruction. `Data` is `DataI` with its extractor (`None` when the
      extractor raises); `TextI` is a `Data` node that strips; `Code` is
      `CodeI`, whose extractor is the line-based `extract_code`. */
  datatype Instruction =
    | Data(text: string, extractor: string -> Option<Value>)
    | Code(text: string, language: string)
    | List(context: string, items: seq<Item>, addStop: bool, effect: Option<string>)
    | Repetition(quantifier: string, items: seq<Item>)
    | Choice(context: string, options: seq<Instruction>)

  /** `Item(key, value=None)`: a key and an optional nested instruction. */
  datatype Item = Item(key: string, value: Option<Instruction>)

  /** The key of the item `ListI(add_stop=True)` appends. */
  const Stop: string := "stop"

  /** The keys of a list of items, in order. */
  function Keys(items: seq<Item>): (ks: seq<string>)
    ensures |ks| == |items|
    ensures forall i :: 0 <= i < |items| ==> ks[i] == items[i].key
  {
    seq(|items|, i requires 0 <= i < |items| => items[i].key)
  }

  /** Items without nested instructions, one per key. */
  function PlainItems(keys: seq<string>): (items: seq<Item>)
    ensures |items| == |keys|
    ensures forall i :: 0 <= i < |keys| ==> items[i].key == keys[i] && items[i].value.None?
  {
    seq(|keys|, i requires 0 <= i < |keys| => Item(keys[i], None))
  }

  /** What the constructors guarantee: lists and repetitions have at least
      one item, the options of a choice are lists, and so on for every
      nested instruction. */
  predicate WellFormed(ins: Instruction)
    decreases ins, 1
  {
    match ins
    case Data(_, _) => true
    case Code(_, _) => true
    case List(_, items, _, _) => |items| >= 1 && ItemsWellFormed(items)
    case Repetition(_, items) => |items| >= 1 && ItemsWellFormed(items)
    case Choice(_, options) =>
      forall i :: 0 <= i < |options| ==> options[i].List? && |options[i].items| >= 1 && WellFormed(options[i])
  }

  /** Every nested instruction of the items is well formed. */
  predicate ItemsWellFormed(items: seq<Item>)
    decreases items, 0
  {
    forall i :: 0 <= i < |items| && items[i].value.Some? ==> WellFormed(items[i].value.value)
  }

  /** `TextI(text)`: a `DataI` whose extractor strips the text. */
  function TextI(text: string): (ins: Instruction)
    ensures ins.Data? && ins.text == text
    ensures forall d :: ins.extractor(d) == Some(Str(Strip(d)))
  {
    Data(text, d => Some(Str(Strip(d))))
  }

  /** `ListI(context, *items, add_stop, effect)` of
      `easy_prompting/prebuilt/instructions.py`: the assertion refuses an
      empty item list; with `add_stop` a value-less `stop` item is appended. */
  function ListI(context: string, items: seq<Item>, addStop: bool, effect: Option<string>): (r: Option<Instruction>)
    ensures r.None? <==> items == []
    ensures r.Some? ==> (r.value.List? && r.value.context == context
      && r.value.addStop == addStop && r.value.effect == effect)
    ensures r.Some? && !addStop ==> r.value.items == items
    ensures r.Some? && addStop ==> r.value.items == items + [Item(Stop, None)]
  {
    if items == [] then None
    else Some(List(context, if addStop then items + [Item(Stop, None)] else items, addStop, effect))
  }

  /** `IList(context, *items, effect)` of `easy_prompting/_instruction.py`:
      the same list without `add_stop`. */
  function IList(context: string, items: seq<Item>, effect: Option<string>): (r: Option<Instruction>)
    ensures r == ListI(context, items, false, effect)
  {
    if items == [] then None else Some(List(context, items, false, effect))
  }

  /** `RepetitionI(quantifier, *items)`: refuses an empty item list. */
  function RepetitionI(quantifier: string, items: seq<Item>): (r: Option<Instruction>)
    ensures r.None? <==> items == []
    ensures r.Some? ==> r.value == Repetition(quantifier, items)
  {
    if items == [] then None else Some(Repetition(quantifier, items))
  }

  /** The constructors build well-formed nodes from well-formed parts. */
  lemma ConstructedWellFormed(context: string, items: seq<Item>, addStop: bool, effect: Option<string>)
    requires ItemsWellFormed(items)
    ensures ListI(context, items, addStop, effect).Some? ==> WellFormed(ListI(context, items, addStop, effect).value)
    ensures RepetitionI(context, items).Some? ==> WellFormed(RepetitionI(context, items).value)
  {
    if addStop && items != [] {
      var all := items + [Item(Stop, None)];
      assert forall i :: 0 <= i < |items| ==> all[i] == items[i];
    }
  }

  /** `ListI.get_stop()`: the `[[stop]]` marker exactly when `add_stop` was
      set. */
  function GetStop(ins: Instruction): (r: Option<string>)
    requires ins.List?
    ensures r.Some? <==> ins.addStop
    ensures r.Some? ==> r.value == Marker(Stop)
  {
    if ins.addStop then Some(Marker(Stop)) else None
  }
}
