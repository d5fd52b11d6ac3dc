/** The text helpers of `easy_prompting/utils.py`. Unlike the copies in
    `easy_prompting/_utils.py`, `pad_text` can leave the first line alone,
    and the numbered and bullet lists indent the continuation lines of a
    multi-line entry so that they line up under its first line. */
module Utils {
  import opened Wrappers
  import opened Text
  import CoreUtils

  /** `pad_text(text, padding, pad_first)`. */
  function PadText(text: string, padding: string, padFirst: bool): (r: string)
    ensures padFirst ==> r == CoreUtils.PadText(text, padding)
    ensures !padFirst ==> r == ReplaceNewlines(text, "\n" + padding)
  {
    if padFirst then Join(Prefixed(padding, Lines(text)), "\n")
    else
      JoinLines(text, "\n" + padding);
      Join(Lines(text), "\n" + padding)
  }

  /** The two modes differ only by the padding in front of the first line. */
  lemma PadFirstPrefix(text: string, padding: string)
    ensures PadText(text, padding, true) == padding + PadText(text, padding, false)
  {
  }

  /** Without padding the first line, the first line is kept and every
      further line is padded; the number of lines is unchanged. */
  lemma PadContinuationLines(text: string, padding: string)
    requires '\n' !in padding
    ensures |Lines(PadText(text, padding, false))| == |Lines(text)|
    ensures Lines(PadText(text, padding, false))[0] == Lines(text)[0]
    ensures Lines(PadText(text, padding, false))[1..] == Prefixed(padding, Lines(text)[1..])
  {
    var rest := PadText(text, padding, false);
    CoreUtils.PadTextLines(text, padding);
    LinesPrepend(padding, rest);
    var lt := Lines(text);
    var lr := Lines(rest);
    assert [padding + lr[0]] + lr[1..] == Prefixed(padding, lt);
    assert padding + lr[0] == padding + lt[0];
    assert lr[0] == (padding + lr[0])[|padding|..];
    assert Prefixed(padding, lt)[1..] == Prefixed(padding, lt[1..]);
  }

  /** A single line is left alone when the first line is not padded. */
  lemma PadSingleLine(text: string, padding: string)
    requires '\n' !in text
    ensures PadText(text, padding, false) == text
  {
    ReplaceNewlinesPlain(text, "\n" + padding);
  }

  /** `scope_text(text)`: the same braces and indentation as the copy in
      `easy_prompting/_utils.py`. */
  function ScopeText(text: string): (r: string)
    ensures r == CoreUtils.ScopeText(text)
  {
    " {\n" + PadText(text, CoreUtils.Indent, true) + "\n}"
  }

  /** `wrap_text(text)`: the same marker as in `easy_prompting/_utils.py`. */
  function WrapText(text: string): (r: string)
    ensures r == CoreUtils.WrapText(text)
  {
    "[[" + text + "]]"
  }

  /** Every present entry with its continuation lines indented by the
      default padding; `None` entries stay `None`. */
  function Continued(texts: seq<Option<string>>): (r: seq<Option<string>>)
    ensures |r| == |texts|
    ensures forall i :: 0 <= i < |texts| ==>
      r[i] == (if texts[i].Some? then Some(PadText(texts[i].value, CoreUtils.Indent, false)) else None)
  {
    seq(|texts|, i requires 0 <= i < |texts| =>
      if texts[i].Some? then Some(PadText(texts[i].value, CoreUtils.Indent, false)) else None)
  }

  /** Entries without newlines are not changed by the indentation. */
  lemma ContinuedPlain(texts: seq<Option<string>>)
    requires forall i :: 0 <= i < |texts| && texts[i].Some? ==> '\n' !in texts[i].value
    ensures Continued(texts) == texts
  {
    forall i | 0 <= i < |texts| && texts[i].Some?
      ensures Continued(texts)[i] == texts[i]
    {
      PadSingleLine(texts[i].value, CoreUtils.Indent);
    }
  }

  /** `enumerate_text(*texts, add_scope)`: numbered by argument position,
      with the continuation lines of every entry indented. */
  method EnumerateText(texts: seq<Option<string>>, addScope: bool) returns (r: string)
    ensures r == CoreUtils.Enumeration(Continued(texts), addScope)
  {
    var i := 1;
    var textLs: seq<string> := [];
    for k := 0 to |texts|
      invariant i == k + 1
      invariant textLs == CoreUtils.Numbered(Continued(texts[..k]))
    {
      assert texts[..k + 1][..k] == texts[..k];
      assert Continued(texts[..k + 1])[..k] == Continued(texts[..k]);
      if texts[k].Some? {
        textLs := textLs + [NatToString(i) + ". " + PadText(texts[k].value, CoreUtils.Indent, false)];
      }
      i := i + 1;
    }
    assert texts[..|texts|] == texts;
    var textOut := Join(textLs, "\n");
    if addScope {
      r := ScopeText(textOut);
    } else {
      r := textOut;
    }
  }

  /** On single-line entries both `enumerate_text` copies agree. */
  lemma EnumerationsAgree(texts: seq<Option<string>>, addScope: bool)
    requires forall i :: 0 <= i < |texts| && texts[i].Some? ==> '\n' !in texts[i].value
    ensures CoreUtils.Enumeration(Continued(texts), addScope) == CoreUtils.Enumeration(texts, addScope)
  {
    ContinuedPlain(texts);
  }

  /** `list_text(*texts, add_scope)`: bullets for the present entries, with
      continuation lines indented, scoped on request. */
  function ListText(texts: seq<Option<string>>, addScope: bool): (r: string)
    ensures r == CoreUtils.ListText(Continued(texts), addScope)
  {
    var textOut := Join(Prefixed("- ", CoreUtils.Present(Continued(texts))), "\n");
    if addScope then ScopeText(textOut) else textOut
  }

  /** The segment `line.split(base)[1]`: the text after the first
      occurrence of `base`, up to the next occurrence or the end. Python
      raises `ValueError` for an empty `base` and `IndexError` when `base`
      does not occur; both give `None`. */
  function SecondSegment(line: string, base: string): (r: Option<string>)
    ensures r.None? <==> base == [] || !Contains(line, base)
    ensures r.Some? ==>
      IndexOf(line, base).Some? && SegmentAt(line, base, IndexOf(line, base).value + |base|, r.value)
  {
    if base == [] then None
    else
      match IndexOf(line, base)
      case None => None
      case Some(k) =>
        SegmentInLine(line, k + |base|, base);
        Some(CutAt(line[k + |base|..], base))
  }

  /** `c` sits in the line at index `i`, is followed by the end of the line
      or by the separator, and holds no separator itself. */
  predicate SegmentAt(line: string, base: string, i: nat, c: string) {
    i + |c| <= |line| && line[i..i + |c|] == c
    && (i + |c| == |line| || OccursAt(line, base, i + |c|))
    && !Contains(c, base)
  }

  /** The text `CutAt` keeps holds no occurrence of the separator. */
  lemma CutHasNoSeparator(t: string, base: string)
    requires base != []
    ensures !Contains(CutAt(t, base), base)
  {
    var c := CutAt(t, base);
    assert c == t[..|c|];
    forall j: nat | j <= |c| ensures !OccursAt(c, base, j) {
      if j + |base| <= |c| {
        assert c[j..j + |base|] == t[j..j + |base|];
        assert !OccursAt(t, base, j);
      }
    }
  }

  /** The text from index `i` up to the next separator is a segment of the
      line at `i`. */
  lemma SegmentInLine(line: string, i: nat, base: string)
    requires i <= |line| && base != []
    ensures SegmentAt(line, base, i, CutAt(line[i..], base))
  {
    var t := line[i..];
    var c := CutAt(t, base);
    CutHasNoSeparator(t, base);
    if Contains(t, base) {
      assert t[|c|..|c| + |base|] == base;
      assert line[i + |c|..i + |c| + |base|] == base;
    } else {
      assert c == t;
    }
  }

  /** The segments of every line, or `None` as soon as one line fails. */
  function Segments(lines: seq<string>, base: string): (r: Option<seq<string>>)
    ensures r.None? <==> exists i :: 0 <= i < |lines| && SecondSegment(lines[i], base).None?
    ensures r.Some? ==> |r.value| == |lines|
    ensures r.Some? ==> forall i :: 0 <= i < |lines| ==> Some(r.value[i]) == SecondSegment(lines[i], base)
  {
    if lines == [] then Some([])
    else
      match SecondSegment(lines[0], base)
      case None => None
      case Some(s) =>
        match Segments(lines[1..], base)
        case None => None
        case Some(rest) => Some([s] + rest)
  }

  /** `multi_str(text, base)`: drops the first and the last line and keeps
      the segment after `base` of each line in between. */
  function MultiStr(text: string, base: string): (r: Option<string>)
    ensures r.None? <==> Segments(DropPy(TakePy(Lines(text), -1), 1), base).None?
  {
    var lines := DropPy(TakePy(Lines(text), -1), 1);
    match Segments(lines, base)
    case None => None
    case Some(segs) => Some(Join(segs, "\n"))
  }

  /** The lines `multi_str` keeps are all but the first and the last. */
  lemma MultiStrLines(text: string)
    ensures var n := |Lines(text)|;
      DropPy(TakePy(Lines(text), -1), 1) == if n >= 2 then Lines(text)[1..n - 1] else []
  {
  }

  /** A segment is cut out of its line, so a newline-free line gives a
      newline-free segment. */
  lemma SegmentHasNoNewline(line: string, base: string)
    requires SecondSegment(line, base).Some? && '\n' !in line
    ensures '\n' !in SecondSegment(line, base).value
  {
    var c := SecondSegment(line, base).value;
    var k := IndexOf(line, base).value + |base|;
    assert c == line[k..k + |c|];
    forall j | 0 <= j < |c| ensures c[j] != '\n' {
      assert c[j] == line[k + j];
    }
  }

  /** Newline-free lines give newline-free segments. */
  lemma SegmentsHaveNoNewline(lines: seq<string>, base: string)
    requires Segments(lines, base).Some?
    requires forall i :: 0 <= i < |lines| ==> '\n' !in lines[i]
    ensures forall i :: 0 <= i < |lines| ==> '\n' !in Segments(lines, base).value[i]
  {
    var segs := Segments(lines, base).value;
    forall i | 0 <= i < |lines| ensures '\n' !in segs[i] {
      assert Some(segs[i]) == SecondSegment(lines[i], base);
      SegmentHasNoNewline(lines[i], base);
    }
  }

  /** Line by line, `multi_str` keeps the segment after `base` of each
      line but the first and the last, so it has two lines fewer than the
      text; a text of fewer than three lines gives the empty text. */
  lemma MultiStrLineByLine(text: string, base: string)
    requires MultiStr(text, base).Some?
    ensures var n, out := |Lines(text)|, MultiStr(text, base).value;
      if n >= 3 then
        |Lines(out)| == n - 2
        && forall i :: 0 <= i < n - 2 ==> Some(Lines(out)[i]) == SecondSegment(Lines(text)[i + 1], base)
      else out == ""
  {
    var n := |Lines(text)|;
    var lines := DropPy(TakePy(Lines(text), -1), 1);
    MultiStrLines(text);
    var segs := Segments(lines, base).value;
    if n >= 3 {
      assert lines == Lines(text)[1..n - 1];
      LinesHaveNoNewline(text);
      SegmentsHaveNoNewline(lines, base);
      LinesOfJoin(segs);
      assert Lines(MultiStr(text, base).value) == segs;
    }
  }

  /** A block written as a first line, lines each starting with `base`, and
      a last line gives back exactly the text after `base` on each line. */
  lemma MultiStrOfBlock(first: string, ls: seq<string>, last: string, base: string)
    requires base != [] && '\n' !in base && '\n' !in first && '\n' !in last
    requires |ls| >= 1
    requires forall i :: 0 <= i < |ls| ==> '\n' !in ls[i] && !Contains(ls[i], base)
    ensures MultiStr(first + "\n" + Join(Prefixed(base, ls), "\n") + "\n" + last, base)
      == Some(Join(ls, "\n"))
  {
    var body := Prefixed(base, ls);
    var text := first + "\n" + Join(body, "\n") + "\n" + last;
    forall i | 0 <= i < |body| ensures '\n' !in body[i] {
      assert body[i] == base + ls[i];
    }
    LinesOfJoin(body);
    LinesPlain(first);
    LinesPlain(last);
    LinesConcat(Join(body, "\n"), last);
    LinesConcat(first, Join(body, "\n") + "\n" + last);
    assert text == first + "\n" + (Join(body, "\n") + "\n" + last);
    assert Lines(text) == [first] + body + [last];
    MultiStrLines(text);
    assert DropPy(TakePy(Lines(text), -1), 1) == body;
    forall i | 0 <= i < |body| ensures SecondSegment(body[i], base) == Some(ls[i]) {
      assert body[i] == base + ls[i] && OccursAt(body[i], base, 0);
      assert body[i][|base|..] == ls[i];
    }
    var segs := Segments(body, base).value;
    assert segs == ls;
  }
}
