/** How the list-like instructions cut a completion at their `[[key]]`
    markers, shared by `ListI`, `IList` and `RepetitionI`: for each key in
    declared order the text is split once at the marker; the text before the
    first marker is dropped and the rest becomes one slice per key. */
module Slicing {
  import opened Wrappers
  import opened Text
  import CoreUtils

  /** What an extraction yields: a text slice or an extractor's value, a
      list of them, or a chosen option's key with its values. */
  datatype Value = Str(s: string) | Items(vs: seq<Value>) | Chosen(key: string, v: Value)

  /** Why an extraction raises `ExtractionError`. */
  datatype ExtractErr =
    | MissingKey(key: string, data: string)
    | ExtractorFailed(data: string)
    | NoValidKey(keys: seq<string>, data: string)

  /** The marker `[[key]]` written for a key. */
  function Marker(key: string): (m: string)
    ensures |m| == |key| + 4
  {
    "[[" + key + "]]"
  }

  /** The marker is the one `wrap_text` writes. */
  lemma MarkerIsWrapped(key: string)
    ensures Marker(key) == CoreUtils.WrapText(key)
  {
  }

  /** The text between the markers `[[keys[i]]]`, each followed by its slice. */
  function Render(keys: seq<string>, slices: seq<string>): string
    requires |keys| == |slices|
  {
    if keys == [] then "" else Marker(keys[0]) + slices[0] + Render(keys[1..], slices[1..])
  }

  /** The splitting loop: for each key, `head, data = data.split(marker, 1)`;
      the heads in order and the text after the last marker, or the first
      marker missing from what is left of the text. */
  function SplitAtMarkers(data: string, keys: seq<string>): (r: Result<(seq<string>, string), ExtractErr>)
    ensures r.Success? ==> |r.value.0| == |keys|
    ensures r.Success? ==> |r.value.1| + 4 * |keys| <= |data|
    ensures r.Failure? ==> r.error.MissingKey? && !Contains(r.error.data, r.error.key)
    decreases |keys|
  {
    if keys == [] then Success(([], data))
    else
      var split := SplitOnce(data, Marker(keys[0]));
      if split.None? then Failure(MissingKey(Marker(keys[0]), data))
      else
        var r := SplitAtMarkers(split.value.1, keys[1..]);
        if r.Failure? then Failure(r.error)
        else Success(([split.value.0] + r.value.0, r.value.1))
  }

  /** `extraction[1:] + [data]`: one slice per key. */
  function Slices(data: string, keys: seq<string>): (r: Result<seq<string>, ExtractErr>)
    ensures r.Success? ==> |r.value| == |keys| || keys == []
    ensures r.Failure? <==> SplitAtMarkers(data, keys).Failure?
  {
    var r := SplitAtMarkers(data, keys);
    if r.Failure? then Failure(r.error) else Success(DropPy(r.value.0, 1) + [r.value.1])
  }

  /** The splitting loop as the source writes it: `data` is rebound after
      every split and the heads are appended. */
  method SplitKeys(data: string, keys: seq<string>) returns (r: Result<(seq<string>, string), ExtractErr>)
    ensures r == SplitAtMarkers(data, keys)
  {
    var rest := data;
    var heads: seq<string> := [];
    assert keys[0..] == keys;
    assert WithHeads([], SplitAtMarkers(data, keys)) == SplitAtMarkers(data, keys) by {
      var r0 := SplitAtMarkers(data, keys);
      if r0.Success? { assert [] + r0.value.0 == r0.value.0; }
    }
    for k := 0 to |keys|
      invariant SplitAtMarkers(data, keys) == WithHeads(heads, SplitAtMarkers(rest, keys[k..]))
    {
      var key := Marker(keys[k]);
      assert keys[k..][1..] == keys[k + 1..];
      if !Contains(rest, key) {
        assert SplitAtMarkers(rest, keys[k..]) == Failure(MissingKey(key, rest));
        return Failure(MissingKey(key, rest));
      }
      var (head, tail) := SplitOnce(rest, key).value;
      WithHeadsAppend(heads, head, SplitAtMarkers(tail, keys[k + 1..]));
      rest := tail;
      heads := heads + [head];
    }
    assert keys[|keys|..] == [];
    assert heads + [] == heads;
    r := Success((heads, rest));
  }

  /** A split result with `heads` put in front of its heads. */
  function WithHeads(heads: seq<string>, r: Result<(seq<string>, string), ExtractErr>): Result<(seq<string>, string), ExtractErr> {
    if r.Failure? then Failure(r.error) else Success((heads + r.value.0, r.value.1))
  }

  /** Moving one head from the result to the front list. */
  lemma WithHeadsAppend(heads: seq<string>, head: string, r: Result<(seq<string>, string), ExtractErr>)
    ensures WithHeads(heads, WithHeads([head], r)) == WithHeads(heads + [head], r)
  {
    if r.Success? {
      assert heads + ([head] + r.value.0) == heads + [head] + r.value.0;
    }
  }

  /** Splitting loses nothing: the first head followed by the markers, each
      with its slice, is the original text. */
  lemma {:induction false} SplitRebuilds(data: string, keys: seq<string>)
    requires keys != [] && SplitAtMarkers(data, keys).Success?
    ensures data == SplitAtMarkers(data, keys).value.0[0]
      + Render(keys, SplitAtMarkers(data, keys).value.0[1..] + [SplitAtMarkers(data, keys).value.1])
    decreases |keys|
  {
    var m := Marker(keys[0]);
    var split := SplitOnce(data, m).value;
    var rest := split.1;
    var inner := SplitAtMarkers(rest, keys[1..]);
    var heads := [split.0] + inner.value.0;
    var tail := inner.value.1;
    assert SplitAtMarkers(data, keys).value == (heads, tail);
    if |keys| == 1 {
      assert inner.value == ([], rest) by {
        assert keys[1..] == [];
      }
      assert heads[1..] + [tail] == [rest];
      RenderOne(keys, rest);
    } else {
      SplitRebuilds(rest, keys[1..]);
      Assemble(data, split.0, keys, rest, inner.value.0, tail);
    }
  }

  /** The rendering of a single slice: its marker, then the slice. */
  lemma RenderOne(keys: seq<string>, x: string)
    requires |keys| == 1
    ensures Render(keys, [x]) == Marker(keys[0]) + x
  {
    assert keys[1..] == [] && [x][1..] == [];
  }

  /** Putting the first split back in front of the rebuilt rest. */
  lemma Assemble(data: string, head: string, keys: seq<string>, rest: string, hs: seq<string>, tail: string)
    requires |keys| == |hs| + 1 && hs != []
    requires data == head + Marker(keys[0]) + rest
    requires rest == hs[0] + Render(keys[1..], hs[1..] + [tail])
    ensures data == ([head] + hs)[0] + Render(keys, ([head] + hs)[1..] + [tail])
  {
    var heads := [head] + hs;
    assert heads[0] == head && heads[1..] == hs;
    var m := Marker(keys[0]);
    var later := Render(keys[1..], hs[1..] + [tail]);
    RenderStep(keys, hs, tail);
    assert Render(keys, hs + [tail]) == m + hs[0] + later;
    Regroup(head, m, hs[0], later);
  }

  /** Regrouping a concatenation of four texts. */
  lemma Regroup(a: string, b: string, c: string, d: string)
    ensures a + b + (c + d) == a + (b + c + d)
  {
  }

  /** One step of `Render` over the slices `hs + [tail]`. */
  lemma RenderStep(keys: seq<string>, hs: seq<string>, tail: string)
    requires |keys| == |hs| + 1 && hs != []
    ensures Render(keys, hs + [tail]) == Marker(keys[0]) + hs[0] + Render(keys[1..], hs[1..] + [tail])
  {
    var slices := hs + [tail];
    assert slices[0] == hs[0];
    assert slices[1..] == hs[1..] + [tail];
  }

  /** A marker whose key holds no `[` cannot start inside the text in front
      of it unless it occurs wholly in that text. */
  lemma MarkerSplit(x: string, key: string, y: string)
    requires '[' !in key && !Contains(x, Marker(key))
    ensures SplitOnce(x + Marker(key) + y, Marker(key)) == Some((x, y))
  {
    var m := Marker(key);
    var s := x + m + y;
    assert m == "[[" + key + "]]";
    forall j: nat | j < |x| ensures !OccursAt(s, m, j) {
      if j + |m| <= |x| {
        assert s[j..j + |m|] == x[j..j + |m|];
        assert !OccursAt(x, m, j);
      } else {
        var t := |x| - j;
        assert 1 <= t < |m|;
        assert s[|x|] == m[0] == '[';
        if t == 1 {
          assert s[|x| + 1] == m[1] == '[';
          assert m[2] != '[' by {
            if key != [] { assert m[2] == key[0]; }
          }
          assert s[j..j + |m|][2] == s[|x| + 1] != m[2];
        } else {
          assert m[t] != '[' by {
            if t < |m| - 2 { assert m[t] == key[t - 2]; }
          }
          assert s[j..j + |m|][t] == s[|x|] != m[t];
        }
      }
    }
    SplitOnceAt(x, m, y);
  }

  /** Every key is free of `[`, the prefix holds no first marker and no
      slice holds the marker that follows it. */
  predicate Separable(prefix: string, keys: seq<string>, slices: seq<string>)
    requires |keys| == |slices|
  {
    (forall i :: 0 <= i < |keys| ==> '[' !in keys[i])
    && (keys != [] ==> !Contains(prefix, Marker(keys[0])))
    && (forall i :: 0 <= i < |keys| - 1 ==> !Contains(slices[i], Marker(keys[i + 1])))
  }

  /** Round trip: splitting rendered markers and slices gives the prefix and
      the slices back. */
  lemma {:induction false} RenderSplits(prefix: string, keys: seq<string>, slices: seq<string>)
    requires |keys| == |slices| >= 1 && Separable(prefix, keys, slices)
    ensures SplitAtMarkers(prefix + Render(keys, slices), keys)
      == Success(([prefix] + slices[..|slices| - 1], slices[|slices| - 1]))
    decreases |keys|
  {
    var m := Marker(keys[0]);
    var later := Render(keys[1..], slices[1..]);
    var rest := slices[0] + later;
    var data := prefix + Render(keys, slices);
    assert Render(keys, slices) == m + slices[0] + later;
    Regroup(prefix, m, slices[0], later);
    MarkerSplit(prefix, keys[0], rest);
    SplitStep(data, keys, prefix, rest);
    if |slices| == 1 {
      assert later == [] && rest == slices[0];
      assert SplitAtMarkers(rest, keys[1..]) == Success(([], rest));
      assert [prefix] + [] == [prefix] + slices[..0];
    } else {
      SeparableRest(prefix, keys, slices);
      RenderSplits(slices[0], keys[1..], slices[1..]);
      HeadsRegroup(prefix, slices);
    }
  }

  /** The heads of the first split, then those of the rest, are the prefix
      and all slices but the last. */
  lemma HeadsRegroup(prefix: string, slices: seq<string>)
    requires |slices| >= 2
    ensures [prefix] + ([slices[0]] + slices[1..][..|slices| - 2]) == [prefix] + slices[..|slices| - 1]
  {
    assert [slices[0]] + slices[1..][..|slices| - 2] == slices[..|slices| - 1];
  }

  /** Separability of the keys after the first. */
  lemma SeparableRest(prefix: string, keys: seq<string>, slices: seq<string>)
    requires |keys| == |slices| >= 2 && Separable(prefix, keys, slices)
    ensures Separable(slices[0], keys[1..], slices[1..])
  {
    assert !Contains(slices[0], Marker(keys[1]));
  }

  /** The first split of the loop, then the rest of the keys. */
  lemma SplitStep(data: string, keys: seq<string>, head: string, rest: string)
    requires keys != [] && SplitOnce(data, Marker(keys[0])) == Some((head, rest))
    ensures SplitAtMarkers(data, keys) == WithHeads([head], SplitAtMarkers(rest, keys[1..]))
  {
  }

  /** Round trip for the slices: each key gets back exactly its slice. */
  lemma RenderSlices(prefix: string, keys: seq<string>, slices: seq<string>)
    requires |keys| == |slices| >= 1 && Separable(prefix, keys, slices)
    ensures Slices(prefix + Render(keys, slices), keys) == Success(slices)
  {
    RenderSplits(prefix, keys, slices);
    SlicesOfHeads(prefix, slices);
  }

  /** `extraction[1:] + [data]` over the heads a split of rendered slices
      yields gives the slices back. */
  lemma SlicesOfHeads(prefix: string, slices: seq<string>)
    requires |slices| >= 1
    ensures DropPy([prefix] + slices[..|slices| - 1], 1) + [slices[|slices| - 1]] == slices
  {
    var n := |slices|;
    assert DropPy([prefix] + slices[..n - 1], 1) == slices[..n - 1];
    assert slices[..n - 1] + [slices[n - 1]] == slices;
  }

  /** What is left after a split is part of the text. */
  lemma ContainsAfterSplit(data: string, m: string, w: string)
    requires m != [] && SplitOnce(data, m).Some? && Contains(SplitOnce(data, m).value.1, w)
    ensures Contains(data, w)
  {
    var (h, t) := SplitOnce(data, m).value;
    assert data[|h| + |m|..] == t;
    assert OccursAt(data, t, |h| + |m|);
    ContainsTrans(data, t, w);
  }

  /** A key whose marker is nowhere in the text makes the split fail. */
  lemma {:induction false} AbsentKeyFails(data: string, keys: seq<string>, i: nat)
    requires i < |keys| && !Contains(data, Marker(keys[i]))
    ensures SplitAtMarkers(data, keys).Failure?
    decreases i
  {
    var split := SplitOnce(data, Marker(keys[0]));
    if i > 0 && split.Some? {
      var rest := split.value.1;
      assert !Contains(rest, Marker(keys[i])) by {
        if Contains(rest, Marker(keys[i])) {
          ContainsAfterSplit(data, Marker(keys[0]), Marker(keys[i]));
        }
      }
      assert keys[1..][i - 1] == keys[i];
      AbsentKeyFails(rest, keys[1..], i - 1);
      SplitStep(data, keys, split.value.0, rest);
    }
  }
}
