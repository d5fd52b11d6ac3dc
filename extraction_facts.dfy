/** What the extraction of the instruction nodes promises: the round trip
    from rendered markers back to slices, failure on a missing marker, the
    groups of a repetition in order, and the choice by declared order. */
module ExtractionFacts {
  import opened Wrappers
  import opened Text
  import opened Slicing
  import opened InstructionTree
  import opened Extraction
  import PrebuiltUtils

  /** Each slice as a raw text value. */
  function Strs(slices: seq<string>): (vs: seq<Value>)
    ensures |vs| == |slices|
    ensures forall i :: 0 <= i < |slices| ==> vs[i] == Str(slices[i])
  {
    seq(|slices|, i requires 0 <= i < |slices| => Str(slices[i]))
  }

  /** Items without nested instructions yield their raw slices. */
  lemma {:induction false} PlainValues(items: seq<Item>, slices: seq<string>, j: nat)
    requires |items| <= |slices| && j <= |items|
    requires forall i :: 0 <= i < |items| ==> items[i].value.None?
    ensures ItemValues(items, slices, j) == Success(Strs(slices[j..|items|]))
    decreases |items| - j
  {
    if j < |items| {
      PlainValues(items, slices, j + 1);
      assert Strs(slices[j..|items|]) == [Str(slices[j])] + Strs(slices[j + 1..|items|]);
    } else {
      assert Strs(slices[j..|items|]) == [];
    }
  }

  /** A list extracts from a text in which every marker occurs as rendered:
      each item's value comes from its own slice. */
  lemma ListOfRendered(l: Instruction, prefix: string, slices: seq<string>)
    requires l.List? && WellFormed(l)
    requires |slices| == |l.items| && Separable(prefix, Keys(l.items), slices)
    ensures Extracted(l, prefix + Render(Keys(l.items), slices))
      == (var vs := ItemValues(l.items, slices, 0);
          if vs.Failure? then Failure(vs.error)
          else Success(Items(if l.addStop then TakePy(vs.value, -1) else vs.value)))
  {
    RenderSlices(prefix, Keys(l.items), slices);
  }

  /** Round trip of `ListI.extract` (and `IList.extract`): markers of
      value-less items, each followed by its slice, give back exactly the
      slices; the text before the first marker is dropped. */
  lemma ListRoundTrip(context: string, keys: seq<string>, effect: Option<string>, prefix: string, slices: seq<string>)
    requires |keys| == |slices| >= 1 && Separable(prefix, keys, slices)
    ensures ListI(context, PlainItems(keys), false, effect).Some?
    ensures Extracted(ListI(context, PlainItems(keys), false, effect).value, prefix + Render(keys, slices))
      == Success(Items(Strs(slices)))
  {
    var l := ListI(context, PlainItems(keys), false, effect).value;
    assert Keys(l.items) == keys;
    ListOfRendered(l, prefix, slices);
    PlainValues(l.items, slices, 0);
    assert slices[0..|l.items|] == slices;
  }

  /** With `add_stop` the `[[stop]]` marker closes the text and the stop
      slice is dropped from the result. */
  lemma ListStopRoundTrip(context: string, keys: seq<string>, effect: Option<string>,
                          prefix: string, slices: seq<string>, last: string)
    requires |keys| == |slices| >= 1 && Separable(prefix, keys + [Stop], slices + [last])
    ensures ListI(context, PlainItems(keys), true, effect).Some?
    ensures Extracted(ListI(context, PlainItems(keys), true, effect).value, prefix + Render(keys + [Stop], slices + [last]))
      == Success(Items(Strs(slices)))
  {
    var l := ListI(context, PlainItems(keys), true, effect).value;
    assert Keys(l.items) == keys + [Stop];
    ListOfRendered(l, prefix, slices + [last]);
    PlainValues(l.items, slices + [last], 0);
    var all := slices + [last];
    assert all[0..|l.items|] == all;
    assert TakePy(Strs(all), -1) == Strs(slices);
  }

  /** `ListI.extract` raises as soon as a marker is missing from what is
      left of the text: a marker that occurs nowhere makes it fail, with the
      error naming a marker absent from the text it was looked for in. */
  lemma ListMissingKey(l: Instruction, data: string, i: nat)
    requires l.List? && WellFormed(l) && i < |l.items|
    requires !Contains(data, Marker(l.items[i].key))
    ensures Extracted(l, data).Failure?
    ensures Extracted(l, data).error.MissingKey?
    ensures !Contains(Extracted(l, data).error.data, Extracted(l, data).error.key)
  {
    AbsentKeyFails(data, Keys(l.items), i);
  }

  /** A list yields one value per item, in item order, without the stop
      item's value when `add_stop` is set. */
  lemma ListResultSize(l: Instruction, data: string)
    requires l.List? && WellFormed(l) && Extracted(l, data).Success?
    ensures Extracted(l, data).value.Items?
    ensures |Extracted(l, data).value.vs| == |l.items| - (if l.addStop then 1 else 0)
  {
  }

  /** Rendering, then appending text, is rendering with the text appended
      to the last slice. */
  lemma {:induction false} RenderAppendLast(keys: seq<string>, slices: seq<string>, x: string)
    requires |keys| == |slices| >= 1
    ensures Render(keys, slices) + x
      == Render(keys, slices[..|slices| - 1] + [slices[|slices| - 1] + x])
    decreases |keys|
  {
    var n := |slices|;
    var s2 := slices[..n - 1] + [slices[n - 1] + x];
    if n == 1 {
      RenderAppendOne(keys, slices, x);
    } else {
      var m, rest := Marker(keys[0]), Render(keys[1..], slices[1..]);
      RenderAppendLast(keys[1..], slices[1..], x);
      assert Render(keys, s2) == m + slices[0] + (rest + x) by {
        assert s2[1..] == slices[1..][..n - 2] + [slices[1..][n - 2] + x];
        assert s2[0] == slices[0];
      }
      Regroup(m, slices[0], rest, x);
    }
  }

  /** `RenderAppendLast` for a single slice. */
  lemma RenderAppendOne(keys: seq<string>, slices: seq<string>, x: string)
    requires |keys| == |slices| == 1
    ensures Render(keys, slices) + x == Render(keys, [slices[0] + x])
  {
    var m, one := Marker(keys[0]), [slices[0] + x];
    assert keys[1..] == [] && slices[1..] == [] && one[1..] == [];
    assert Render(keys, slices) == m + slices[0];
    assert Render(keys, one) == m + (slices[0] + x);
  }

  /** The rendering of several groups of slices, one after the other. */
  function RenderGroups(keys: seq<string>, groups: seq<seq<string>>): string
    requires forall g :: 0 <= g < |groups| ==> |groups[g]| == |keys|
  {
    if groups == [] then "" else Render(keys, groups[0]) + RenderGroups(keys, groups[1..])
  }

  /** The groups can be told apart: each is separable after the text in
      front of it (the prefix, then the last slice of the group before),
      and the last slice of the last group holds no first marker. */
  predicate GroupsSeparable(prefix: string, keys: seq<string>, groups: seq<seq<string>>)
    requires |keys| >= 1 && forall g :: 0 <= g < |groups| ==> |groups[g]| == |keys|
  {
    var n := |keys|;
    |groups| >= 1
    && Separable(prefix, keys, groups[0])
    && (forall g :: 1 <= g < |groups| ==> Separable(groups[g - 1][n - 1], keys, groups[g]))
    && !Contains(groups[|groups| - 1][n - 1], Marker(keys[0]))
  }

  /** The last slice is cut at the next group's first marker. */
  lemma CutBeforeNextGroup(last: string, keys: seq<string>, later: string)
    requires |keys| >= 1 && '[' !in keys[0] && !Contains(last, Marker(keys[0]))
    requires |later| >= |Marker(keys[0])| && later[..|Marker(keys[0])|] == Marker(keys[0])
    ensures Contains(last + later, Marker(keys[0]))
    ensures CutAt(last + later, Marker(keys[0])) == last
  {
    var m := Marker(keys[0]);
    assert later == m + later[|m|..];
    MarkerSplit(last, keys[0], later[|m|..]);
    assert last + later == last + m + later[|m|..];
  }

  /** Rendered markers start with the first marker. */
  lemma RenderStartsWithMarker(keys: seq<string>, groups: seq<seq<string>>)
    requires |keys| >= 1 && |groups| >= 1 && forall g :: 0 <= g < |groups| ==> |groups[g]| == |keys|
    ensures |RenderGroups(keys, groups)| >= |Marker(keys[0])|
    ensures RenderGroups(keys, groups)[..|Marker(keys[0])|] == Marker(keys[0])
  {
    var m := Marker(keys[0]);
    var g0 := groups[0];
    assert Render(keys, g0) == m + g0[0] + Render(keys[1..], g0[1..]);
    StartsWith(m, g0[0], Render(keys[1..], g0[1..]), RenderGroups(keys, groups[1..]));
  }

  /** A text that starts with `m` still does after more is appended. */
  lemma StartsWith(m: string, a: string, b: string, c: string)
    ensures |m + a + b + c| >= |m| && (m + a + b + c)[..|m|] == m
  {
    assert m + a + b + c == m + (a + b + c);
    assert (m + (a + b + c))[..|m|] == m;
  }

  /** One pass of the repetition over a rendered group followed by more
      text: the pass yields the group's slices, with the last one cut before
      the next first marker, and leaves the last slice and the text after. */
  lemma PassOfRendered(items: seq<Item>, prefix: string, group: seq<string>, later: string)
    requires |items| >= 1 && ItemsWellFormed(items) && |group| == |items|
    requires Separable(prefix, Keys(items), group)
    ensures var n := |items|;
      SplitAtMarkers(prefix + Render(Keys(items), group) + later, Keys(items))
        == Success(([prefix] + group[..n - 1], group[n - 1] + later))
  {
    var keys := Keys(items);
    var n := |items|;
    var g2 := group[..n - 1] + [group[n - 1] + later];
    RenderAppendLast(keys, group, later);
    Assoc(prefix, Render(keys, group), later);
    SeparableLastFree(prefix, keys, group, later);
    RenderSplits(prefix, keys, g2);
    assert g2[..n - 1] == group[..n - 1];
  }

  /** Concatenation is associative. */
  lemma Assoc(a: string, b: string, c: string)
    ensures a + b + c == a + (b + c)
  {
  }

  /** Separability does not look at the last slice. */
  lemma SeparableLastFree(prefix: string, keys: seq<string>, group: seq<string>, later: string)
    requires |keys| == |group| >= 1 && Separable(prefix, keys, group)
    ensures Separable(prefix, keys, group[..|group| - 1] + [group[|group| - 1] + later])
  {
    var n := |group|;
    var g2 := group[..n - 1] + [group[n - 1] + later];
    forall i | 0 <= i < n - 1 ensures !Contains(g2[i], Marker(keys[i + 1])) {
      assert g2[i] == group[i];
    }
  }

  /** The group values of value-less items over rendered groups. */
  function GroupValues(groups: seq<seq<string>>): (vs: seq<Value>)
    ensures |vs| == |groups|
    ensures forall g :: 0 <= g < |groups| ==> vs[g] == Items(Strs(groups[g]))
  {
    seq(|groups|, g requires 0 <= g < |groups| => Items(Strs(groups[g])))
  }

  /** One pass of `Groups` over value-less items, once the split of the
      pass is known. */
  lemma GroupsStep(items: seq<Item>, data: string, prefix: string, g0: seq<string>, rest: string)
    requires |items| >= 1 && forall i :: 0 <= i < |items| ==> items[i].value.None?
    requires |g0| == |items|
    requires SplitAtMarkers(data, Keys(items)) == Success(([prefix] + g0[..|items| - 1], rest))
    requires CutAt(rest, Marker(items[0].key)) == g0[|items| - 1]
    ensures !Contains(rest, Marker(items[0].key)) ==> Groups(items, data) == Success([Items(Strs(g0))])
    ensures Contains(rest, Marker(items[0].key)) ==>
      Groups(items, data) == Prepend([Items(Strs(g0))], Groups(items, rest))
  {
    var n := |items|;
    var first := Marker(items[0].key);
    GroupSlicesOf(prefix, g0, rest, first);
    PlainValues(items, g0, 0);
    assert g0[0..n] == g0;
  }

  /** The slices of a pass whose heads are a prefix and all but the last
      slice of a group. */
  lemma GroupSlicesOf(prefix: string, g0: seq<string>, rest: string, first: string)
    requires |g0| >= 1 && first != [] && CutAt(rest, first) == g0[|g0| - 1]
    ensures GroupSlices([prefix] + g0[..|g0| - 1], rest, first) == g0
  {
    assert DropPy([prefix] + g0[..|g0| - 1], 1) == g0[..|g0| - 1];
  }

  /** The passes of `RepetitionI.extract` over rendered groups of
      value-less items give back every group, in order. */
  lemma {:induction false} GroupsOfRendered(items: seq<Item>, prefix: string, groups: seq<seq<string>>)
    requires |items| >= 1 && forall i :: 0 <= i < |items| ==> items[i].value.None?
    requires forall g :: 0 <= g < |groups| ==> |groups[g]| == |items|
    requires GroupsSeparable(prefix, Keys(items), groups)
    ensures Groups(items, prefix + RenderGroups(Keys(items), groups)) == Success(GroupValues(groups))
    decreases |groups|
  {
    var keys := Keys(items);
    var n := |items|;
    var g0 := groups[0];
    if |groups| == 1 {
      assert RenderGroups(keys, groups) == Render(keys, g0) + RenderGroups(keys, groups[1..]);
      assert RenderGroups(keys, groups) == Render(keys, g0);
      GroupsOfOne(items, prefix, g0);
      assert GroupValues(groups) == [Items(Strs(g0))];
    } else {
      GroupsSeparableTail(prefix, keys, groups);
      GroupsOfRendered(items, g0[n - 1], groups[1..]);
      assert Separable(g0[n - 1], keys, groups[1]);
      FirstPassOfRendered(items, prefix, groups);
      GroupValuesCons(groups);
    }
  }

  /** The first pass over two or more rendered groups yields the first
      group and leaves its last slice followed by the other groups. */
  lemma FirstPassOfRendered(items: seq<Item>, prefix: string, groups: seq<seq<string>>)
    requires |items| >= 1 && forall i :: 0 <= i < |items| ==> items[i].value.None?
    requires |groups| >= 2 && forall g :: 0 <= g < |groups| ==> |groups[g]| == |items|
    requires Separable(prefix, Keys(items), groups[0])
    requires Separable(groups[0][|items| - 1], Keys(items), groups[1])
    ensures var rest := groups[0][|items| - 1] + RenderGroups(Keys(items), groups[1..]);
      Groups(items, prefix + RenderGroups(Keys(items), groups))
        == Prepend([Items(Strs(groups[0]))], Groups(items, rest))
  {
    var keys, n := Keys(items), |items|;
    FirstPassSplit(items, prefix, groups);
    NextGroupCut(keys, groups);
    GroupsStep(items, prefix + RenderGroups(keys, groups), prefix, groups[0],
      groups[0][n - 1] + RenderGroups(keys, groups[1..]));
  }

  /** The split of the first pass over two or more rendered groups. */
  lemma FirstPassSplit(items: seq<Item>, prefix: string, groups: seq<seq<string>>)
    requires |items| >= 1 && forall i :: 0 <= i < |items| ==> items[i].value.None?
    requires |groups| >= 2 && forall g :: 0 <= g < |groups| ==> |groups[g]| == |items|
    requires Separable(prefix, Keys(items), groups[0])
    ensures var n, later := |items|, RenderGroups(Keys(items), groups[1..]);
      SplitAtMarkers(prefix + RenderGroups(Keys(items), groups), Keys(items))
        == Success(([prefix] + groups[0][..n - 1], groups[0][n - 1] + later))
  {
    var keys, g0 := Keys(items), groups[0];
    var later := RenderGroups(keys, groups[1..]);
    assert RenderGroups(keys, groups) == Render(keys, g0) + later;
    Assoc(prefix, Render(keys, g0), later);
    PassOfRendered(items, prefix, g0, later);
  }

  /** After the first group, the first marker of the second group is the
      next one: the last slice of the first group is cut right there. */
  lemma NextGroupCut(keys: seq<string>, groups: seq<seq<string>>)
    requires |keys| >= 1 && |groups| >= 2 && forall g :: 0 <= g < |groups| ==> |groups[g]| == |keys|
    requires Separable(groups[0][|keys| - 1], keys, groups[1])
    ensures var rest := groups[0][|keys| - 1] + RenderGroups(keys, groups[1..]);
      Contains(rest, Marker(keys[0])) && CutAt(rest, Marker(keys[0])) == groups[0][|keys| - 1]
  {
    RenderStartsWithMarker(keys, groups[1..]);
    CutBeforeNextGroup(groups[0][|keys| - 1], keys, RenderGroups(keys, groups[1..]));
  }

  /** A single rendered group, with no first marker in its last slice,
      gives back that group. */
  lemma GroupsOfOne(items: seq<Item>, prefix: string, g0: seq<string>)
    requires |items| >= 1 && forall i :: 0 <= i < |items| ==> items[i].value.None?
    requires |g0| == |items| && ItemsWellFormed(items)
    requires Separable(prefix, Keys(items), g0) && !Contains(g0[|items| - 1], Marker(items[0].key))
    ensures Groups(items, prefix + Render(Keys(items), g0)) == Success([Items(Strs(g0))])
  {
    var n := |items|;
    var data := prefix + Render(Keys(items), g0);
    PassOfRendered(items, prefix, g0, "");
    assert data + "" == data && g0[n - 1] + "" == g0[n - 1];
    GroupsStep(items, data, prefix, g0, g0[n - 1]);
  }

  /** The groups after the first are separable after the first group's
      last slice. */
  lemma GroupsSeparableTail(prefix: string, keys: seq<string>, groups: seq<seq<string>>)
    requires |keys| >= 1 && |groups| >= 2 && forall g :: 0 <= g < |groups| ==> |groups[g]| == |keys|
    requires GroupsSeparable(prefix, keys, groups)
    ensures GroupsSeparable(groups[0][|keys| - 1], keys, groups[1..])
  {
    var n, more := |keys|, groups[1..];
    forall g | 1 <= g < |more| ensures Separable(more[g - 1][n - 1], keys, more[g]) {
      assert more[g - 1] == groups[g] && more[g] == groups[g + 1];
    }
  }

  /** The values of the groups: the first group's, then the others'. */
  lemma GroupValuesCons(groups: seq<seq<string>>)
    requires |groups| >= 1
    ensures GroupValues(groups) == [Items(Strs(groups[0]))] + GroupValues(groups[1..])
  {
    assert GroupValues(groups)[1..] == GroupValues(groups[1..]);
  }

  /** Round trip of `RepetitionI.extract`: groups of value-less items,
      rendered one after another, come back as one list of slices per
      group, in input order. */
  lemma RepetitionRoundTrip(quantifier: string, keys: seq<string>, prefix: string, groups: seq<seq<string>>)
    requires |keys| >= 1 && forall g :: 0 <= g < |groups| ==> |groups[g]| == |keys|
    requires GroupsSeparable(prefix, keys, groups)
    ensures RepetitionI(quantifier, PlainItems(keys)).Some?
    ensures Extracted(RepetitionI(quantifier, PlainItems(keys)).value, prefix + RenderGroups(keys, groups))
      == Success(Items(GroupValues(groups)))
  {
    var items := PlainItems(keys);
    assert Keys(items) == keys;
    RenderedHasFirstMarker(keys, prefix, groups);
    GroupsOfRendered(items, prefix, groups);
    RepetitionIsGroups(Repetition(quantifier, items), prefix + RenderGroups(keys, groups));
  }

  /** Rendered groups hold the first marker. */
  lemma RenderedHasFirstMarker(keys: seq<string>, prefix: string, groups: seq<seq<string>>)
    requires |keys| >= 1 && |groups| >= 1 && forall g :: 0 <= g < |groups| ==> |groups[g]| == |keys|
    ensures Contains(prefix + RenderGroups(keys, groups), Marker(keys[0]))
  {
    RenderStartsWithMarker(keys, groups);
    var m := Marker(keys[0]);
    var rg := RenderGroups(keys, groups);
    assert rg == m + rg[|m|..];
    ContainsMiddle(prefix, m, rg[|m|..]);
    assert prefix + rg == prefix + m + rg[|m|..];
  }

  /** Once the first marker occurs, a repetition extracts its groups. */
  lemma RepetitionIsGroups(r: Instruction, data: string)
    requires r.Repetition? && WellFormed(r) && Contains(data, Marker(r.items[0].key))
    ensures Extracted(r, data) == (var gs := Groups(r.items, data);
      if gs.Failure? then Failure(gs.error) else Success(Items(gs.value)))
  {
  }

  /** `RepetitionI.extract` returns no groups, and no error, when the first
      item's marker does not occur in the text. */
  lemma RepetitionWithoutFirstMarker(r: Instruction, data: string)
    requires r.Repetition? && WellFormed(r) && !Contains(data, Marker(r.items[0].key))
    ensures Extracted(r, data) == Success(Items([]))
  {
  }

  /** Within a repetition, a marker that occurs nowhere in the text makes
      the extraction fail once the first marker does occur. */
  lemma RepetitionMissingKey(r: Instruction, data: string, i: nat)
    requires r.Repetition? && WellFormed(r) && i < |r.items|
    requires Contains(data, Marker(r.items[0].key)) && !Contains(data, Marker(r.items[i].key))
    ensures Extracted(r, data).Failure? && Extracted(r, data).error.MissingKey?
  {
    AbsentKeyFails(data, Keys(r.items), i);
  }

  /** Every pass of the repetition consumes at least one marker, so what is
      left of the text is strictly shorter: the `while True` loop ends. */
  lemma RepetitionPassShrinks(items: seq<Item>, data: string)
    requires |items| >= 1 && SplitAtMarkers(data, Keys(items)).Success?
    ensures |SplitAtMarkers(data, Keys(items)).value.1| < |data|
  {
  }

  /** The choice from option `i` on is the choice from option `j` on when
      no option in between has its first marker in the text. */
  lemma {:induction false} ChoiceSkips(options: seq<Instruction>, data: string, i: nat, j: nat)
    requires forall k :: 0 <= k < |options| ==> options[k].List? && |options[k].items| >= 1 && WellFormed(options[k])
    requires i <= j <= |options|
    requires forall k :: i <= k < j ==> !Contains(data, Marker(options[k].items[0].key))
    ensures ChoiceExtracted(options, data, i) == ChoiceExtracted(options, data, j)
    decreases j - i
  {
    if i < j {
      ChoiceSkips(options, data, i + 1, j);
      ChoiceSkipsOne(options, data, i);
    }
  }

  /** An option whose first marker is absent is passed over. */
  lemma ChoiceSkipsOne(options: seq<Instruction>, data: string, i: nat)
    requires forall k :: 0 <= k < |options| ==> options[k].List? && |options[k].items| >= 1 && WellFormed(options[k])
    requires i < |options| && !Contains(data, Marker(options[i].items[0].key))
    ensures ChoiceExtracted(options, data, i) == ChoiceExtracted(options, data, i + 1)
  {
  }

  /** `ChoiceI.extract` takes the first option in declared order whose
      first marker occurs anywhere in the text, wherever that marker sits
      relative to the others, and returns its first key with its
      extraction. */
  lemma ChoiceFirstDeclared(c: Instruction, data: string, j: nat)
    requires c.Choice? && WellFormed(c) && j < |c.options|
    requires Contains(data, Marker(c.options[j].items[0].key))
    requires forall k :: 0 <= k < j ==> !Contains(data, Marker(c.options[k].items[0].key))
    ensures Extracted(c, data) == (var v := Extracted(c.options[j], data);
      if v.Failure? then Failure(v.error) else Success(Chosen(c.options[j].items[0].key, v.value)))
  {
    ChoiceSkips(c.options, data, 0, j);
  }

  /** `ChoiceI.extract` raises when no option's first marker occurs. */
  lemma ChoiceNoValidKey(c: Instruction, data: string)
    requires c.Choice? && WellFormed(c)
    requires forall k :: 0 <= k < |c.options| ==> !Contains(data, Marker(c.options[k].items[0].key))
    ensures Extracted(c, data) == Failure(NoValidKey(OptionMarkers(c.options), data))
  {
    ChoiceSkips(c.options, data, 0, |c.options|);
  }

  /** Option `j` is the first from option `i` on whose first marker occurs. */
  predicate FirstMatchFrom(options: seq<Instruction>, data: string, i: nat, j: nat)
    requires forall k :: 0 <= k < |options| ==> options[k].List? && |options[k].items| >= 1
  {
    i <= j < |options|
    && Contains(data, Marker(options[j].items[0].key))
    && forall k :: i <= k < j ==> !Contains(data, Marker(options[k].items[0].key))
  }

  /** Conversely, a successful choice names the first key of the first
      option whose marker occurs, with that option's extraction. */
  lemma {:induction false} ChoiceIsFirstDeclared(options: seq<Instruction>, data: string, i: nat)
    requires forall k :: 0 <= k < |options| ==> options[k].List? && |options[k].items| >= 1 && WellFormed(options[k])
    requires ChoiceExtracted(options, data, i).Success?
    ensures exists j: nat :: (FirstMatchFrom(options, data, i, j)
      && Extracted(options[j], data).Success?
      && ChoiceExtracted(options, data, i).value == Chosen(options[j].items[0].key, Extracted(options[j], data).value))
    decreases |options| - i
  {
    if Contains(data, Marker(options[i].items[0].key)) {
      assert FirstMatchFrom(options, data, i, i);
    } else {
      ChoiceIsFirstDeclared(options, data, i + 1);
      var j: nat :| FirstMatchFrom(options, data, i + 1, j)
        && Extracted(options[j], data).Success?
        && ChoiceExtracted(options, data, i + 1).value == Chosen(options[j].items[0].key, Extracted(options[j], data).value);
      assert FirstMatchFrom(options, data, i, j);
    }
  }

  /** `TextI` extracts the stripped text, and extracting the result again
      changes nothing. */
  lemma TextIStrips(text: string, data: string)
    ensures Extracted(TextI(text), data) == Success(Str(Strip(data)))
    ensures Extracted(TextI(text), Strip(data)) == Extracted(TextI(text), data)
  {
    StripIdempotent(data);
  }

  /** `DataI` turns an extractor that raises into `ExtractionError` and
      otherwise returns the extractor's value. */
  lemma DataIWrapsErrors(text: string, f: string -> Option<Value>, data: string)
    ensures f(data).None? <==> Extracted(Data(text, f), data) == Failure(ExtractorFailed(data))
    ensures f(data).Some? ==> Extracted(Data(text, f), data) == Success(f(data).value)
  {
  }

  /** `CodeI` extracts the stripped text of a block written by
      `delimit_code` with the same language keyword. */
  lemma CodeIRoundTrip(text: string, language: string, code: string)
    requires '\n' !in language
    requires forall j :: 0 <= j < |Lines(code)| ==> !PrebuiltUtils.IsFenceLine(Lines(code)[j])
    ensures Extracted(Code(text, language), PrebuiltUtils.DelimitCode(code, language)) == Success(Str(Strip(code)))
  {
    PrebuiltUtils.ExtractDelimited(code, language);
  }
}
