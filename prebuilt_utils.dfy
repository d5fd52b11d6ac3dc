/** The helpers of `easy_prompting/prebuilt/_utils.py`: a bullet list
    without continuation indentation, a line-based `extract_code` and
    `delimit_code`. */
module PrebuiltUtils {
  import opened Wrappers
  import opened Text
  import CoreUtils
  import opened CodeFence

  /** `list_text(*texts, add_scope)`: bullets for the present entries. */
  function ListText(texts: seq<Option<string>>, addScope: bool): (r: string)
    ensures r == CoreUtils.ListText(texts, addScope)
  {
    var textOut := Join(Prefixed("- ", CoreUtils.Present(texts)), "\n");
    if addScope then CoreUtils.ScopeText(textOut) else textOut
  }

  /** `line.startswith("```")`. */
  predicate IsFenceLine(line: string) {
    |line| >= |Fence| && line[..|Fence|] == Fence
  }

  /** The first fence line at or after index `from`. */
  function NextFence(lines: seq<string>, from: nat): (r: Option<nat>)
    ensures r.None? ==> forall j :: from <= j < |lines| ==> !IsFenceLine(lines[j])
    ensures r.Some? ==> from <= r.value < |lines| && IsFenceLine(lines[r.value])
    ensures r.Some? ==> forall j :: from <= j < r.value ==> !IsFenceLine(lines[j])
    decreases |lines| - from
  {
    if from >= |lines| then None
    else if IsFenceLine(lines[from]) then Some(from)
    else NextFence(lines, from + 1)
  }

  /** Why the line-based `extract_code` fails: with fewer than two fence
      lines it joins the list `new_lines`, whose items are themselves lists
      of lines, and `str.join` raises `TypeError` unless that list is empty. */
  datatype CodeError = JoinOfLists

  /** Every line before index `upTo` is a fence line. */
  predicate FencesOnly(lines: seq<string>, upTo: nat)
    requires upTo <= |lines|
  {
    forall j :: 0 <= j < upTo ==> IsFenceLine(lines[j])
  }

  /** The indices of the first two fence lines, if there are two. */
  function FencePair(lines: seq<string>): (r: Option<(nat, nat)>)
    ensures r.Some? ==> NextFence(lines, 0) == Some(r.value.0)
    ensures r.Some? ==> NextFence(lines, r.value.0 + 1) == Some(r.value.1)
    ensures r.None? ==> NextFence(lines, 0).None? || NextFence(lines, NextFence(lines, 0).value + 1).None?
  {
    match NextFence(lines, 0)
    case None => None
    case Some(a) =>
      match NextFence(lines, a + 1)
      case None => None
      case Some(b) => Some((a, b))
  }

  /** What `extract_code` returns: the lines strictly between the first two
      fence lines, joined and stripped. With fewer than two fence lines the
      result is `""` when every line is a fence line and an error otherwise. */
  function FirstBlock(code: string): Result<string, CodeError> {
    BlockOfLines(Lines(code))
  }

  /** `FirstBlock` on the lines of the text. */
  function BlockOfLines(lines: seq<string>): Result<string, CodeError> {
    var pair := FencePair(lines);
    if pair.Some? then Success(Strip(Join(lines[pair.value.0 + 1..pair.value.1], "\n")))
    else if FencesOnly(lines, |lines|) then Success("")
    else Failure(JoinOfLists)
  }

  /** `extract_code(code)`, the loop over the lines that remembers the first
      fence line and collects the other lines. */
  method ExtractCode(code: string) returns (r: Result<string, CodeError>)
    ensures r == FirstBlock(code)
  {
    r := ScanLines(Lines(code));
  }

  /** The loop of `extract_code` over the lines of the text. */
  method ScanLines(lines: seq<string>) returns (r: Result<string, CodeError>)
    ensures r == BlockOfLines(lines)
  {
    var newLines: seq<seq<string>> := [];
    var start: Option<nat> := None;
    for i := 0 to |lines|
      invariant start.None? ==> forall j :: 0 <= j < i ==> !IsFenceLine(lines[j])
      invariant start.Some? ==> start.value < i && NextFence(lines, 0) == start
      invariant start.Some? ==> forall j :: start.value < j < i ==> !IsFenceLine(lines[j])
      invariant forall j :: 0 <= j < |newLines| ==> newLines[j] == lines
      invariant newLines == [] <==> FencesOnly(lines, i)
    {
      FencesOnlyStep(lines, i);
      if IsFenceLine(lines[i]) {
        if start.Some? {
          NextFenceAt(lines, start.value + 1, i);
          FencePairOf(lines, start.value, i);
          FirstBlockOfPair(lines, start.value, i);
          return Success(Strip(Join(lines[start.value + 1..i], "\n")));
        }
        NextFenceAt(lines, 0, i);
        start := Some(i);
      } else {
        newLines := newLines + [lines];
      }
    }
    NoSecondFence(lines, start);
    if newLines == [] {
      r := Success("");
    } else {
      r := Failure(JoinOfLists);
    }
  }

  /** One more line keeps every line a fence line exactly when it is one. */
  lemma FencesOnlyStep(lines: seq<string>, i: nat)
    requires i < |lines|
    ensures FencesOnly(lines, i + 1) <==> FencesOnly(lines, i) && IsFenceLine(lines[i])
  {
  }

  /** A scan that ends without a second fence line found none: there are
      fewer than two. */
  lemma NoSecondFence(lines: seq<string>, start: Option<nat>)
    requires start.None? ==> forall j :: 0 <= j < |lines| ==> !IsFenceLine(lines[j])
    requires start.Some? ==> start.value < |lines| && NextFence(lines, 0) == start
    requires start.Some? ==> forall j :: start.value < j < |lines| ==> !IsFenceLine(lines[j])
    ensures FencePair(lines).None?
  {
    if start.None? {
      assert NextFence(lines, 0).None?;
    } else {
      assert NextFence(lines, start.value + 1).None?;
    }
  }

  /** `delimit_code(text, keyword)`: the text between an opening fence with
      the language keyword and a closing fence, each on its own line. */
  function DelimitCode(text: string, keyword: string): (r: string)
    ensures '\n' !in keyword ==> Lines(r) == [Fence + keyword] + Lines(text) + [Fence]
  {
    var r := Fence + keyword + "\n" + text + "\n" + Fence;
    if '\n' !in keyword then
      DelimitedLines(text, keyword);
      r
    else r
  }

  /** The lines of a delimited block. */
  lemma DelimitedLines(text: string, keyword: string)
    requires '\n' !in keyword
    ensures Lines(Fence + keyword + "\n" + text + "\n" + Fence)
      == [Fence + keyword] + Lines(text) + [Fence]
  {
    var open := Fence + keyword;
    assert Fence + keyword + "\n" + text + "\n" + Fence == open + "\n" + (text + "\n" + Fence);
    LinesConcat(open, text + "\n" + Fence);
    LinesConcat(text, Fence);
    LinesPlain(open);
    LinesPlain(Fence);
  }

  /** The first fence line from `from` on is the one at `k` when every
      line in between is not a fence line. */
  lemma {:induction false} NextFenceAt(lines: seq<string>, from: nat, k: nat)
    requires from <= k < |lines| && IsFenceLine(lines[k])
    requires forall j :: from <= j < k ==> !IsFenceLine(lines[j])
    ensures NextFence(lines, from) == Some(k)
    decreases k - from
  {
    if from < k {
      NextFenceAt(lines, from + 1, k);
    }
  }

  /** `FirstBlock` in terms of the lines and the pair of fences found. */
  lemma FirstBlockOfPair(lines: seq<string>, a: nat, b: nat)
    requires FencePair(lines) == Some((a, b))
    ensures BlockOfLines(lines) == Success(Strip(Join(lines[a + 1..b], "\n")))
  {
    assert NextFence(lines, a + 1) == Some(b);
    assert a < b < |lines|;
    assert FencePair(lines).value.0 == a && FencePair(lines).value.1 == b;
  }

  /** In a delimited block the first two fence lines are the delimiters. */
  lemma DelimiterPair(lt: seq<string>, keyword: string)
    requires forall j :: 0 <= j < |lt| ==> !IsFenceLine(lt[j])
    ensures FencePair([Fence + keyword] + lt + [Fence]) == Some((0, |lt| + 1))
  {
    var n := |lt|;
    var lines := [Fence + keyword] + lt + [Fence];
    assert lines[0][..|Fence|] == Fence;
    NextFenceAt(lines, 0, 0);
    assert lines[n + 1] == Fence;
    forall j | 1 <= j < n + 1 ensures !IsFenceLine(lines[j]) {
      assert lines[j] == lt[j - 1];
    }
    NextFenceAt(lines, 1, n + 1);
  }

  /** The lines between two delimiters are the block of the delimited
      lines when none of them starts with a fence. */
  lemma BlockOfDelimited(lt: seq<string>, keyword: string)
    requires forall j :: 0 <= j < |lt| ==> !IsFenceLine(lt[j])
    ensures BlockOfLines([Fence + keyword] + lt + [Fence]) == Success(Strip(Join(lt, "\n")))
  {
    var lines := [Fence + keyword] + lt + [Fence];
    DelimiterPair(lt, keyword);
    FirstBlockOfPair(lines, 0, |lt| + 1);
    assert lines[1..|lt| + 1] == lt;
  }

  /** Round trip: a delimited block whose text has no line starting with
      a fence extracts to the stripped text. */
  lemma ExtractDelimited(text: string, keyword: string)
    requires '\n' !in keyword
    requires forall j :: 0 <= j < |Lines(text)| ==> !IsFenceLine(Lines(text)[j])
    ensures FirstBlock(DelimitCode(text, keyword)) == Success(Strip(text))
  {
    var lt := Lines(text);
    assert Lines(DelimitCode(text, keyword)) == [Fence + keyword] + lt + [Fence];
    BlockOfDelimited(lt, keyword);
    JoinLinesIdentity(text);
  }

  /** The first fence found in a list is still the first after more lines
      are appended. */
  lemma NextFenceExtend(lines: seq<string>, more: seq<string>, from: nat)
    requires NextFence(lines, from).Some?
    ensures NextFence(lines + more, from) == NextFence(lines, from)
  {
    var k := NextFence(lines, from).value;
    forall j | from <= j < k ensures !IsFenceLine((lines + more)[j]) {
      assert (lines + more)[j] == lines[j];
    }
    assert (lines + more)[k] == lines[k];
    NextFenceAt(lines + more, from, k);
  }

  /** Once two fence lines have been seen, whatever follows is ignored. */
  lemma LaterLinesIgnored(code: string, rest: string)
    requires FencePair(Lines(code)).Some?
    ensures FirstBlock(code + "\n" + rest) == FirstBlock(code)
  {
    LinesConcat(code, rest);
    BlockOfLinesExtend(Lines(code), Lines(rest));
  }

  /** `LaterLinesIgnored` on lists of lines. */
  lemma BlockOfLinesExtend(lines: seq<string>, more: seq<string>)
    requires FencePair(lines).Some?
    ensures BlockOfLines(lines + more) == BlockOfLines(lines)
  {
    var all := lines + more;
    var pair := FencePair(lines).value;
    var a, b := pair.0, pair.1;
    NextFenceExtend(lines, more, 0);
    NextFenceExtend(lines, more, a + 1);
    FencePairOf(all, a, b);
    FirstBlockOfPair(all, a, b);
    FirstBlockOfPair(lines, a, b);
    assert a < b < |lines|;
    SliceOfPrefix(lines, more, a + 1, b);
  }

  /** A slice inside the first list is unchanged by appending a second. */
  lemma SliceOfPrefix(xs: seq<string>, ys: seq<string>, i: nat, j: nat)
    requires i <= j <= |xs|
    ensures (xs + ys)[i..j] == xs[i..j]
  {
  }

  /** The pair of fences is the first fence and the next one after it. */
  lemma FencePairOf(lines: seq<string>, a: nat, b: nat)
    requires NextFence(lines, 0) == Some(a) && NextFence(lines, a + 1) == Some(b)
    ensures FencePair(lines) == Some((a, b))
  {
  }

  /** Text without any fence line is refused. */
  lemma NoFenceFails(code: string)
    requires forall j :: 0 <= j < |Lines(code)| ==> !IsFenceLine(Lines(code)[j])
    ensures FirstBlock(code) == Failure(JoinOfLists)
  {
    assert !IsFenceLine(Lines(code)[0]);
  }
}
