/** The text helpers of `easy_prompting/_utils.py`: padding, markers,
    scopes, bullet and numbered lists, and the regular-expression
    `extract_code`. */
module CoreUtils {
  import opened Wrappers
  import opened Text
  import opened CodeFence

  /** `If(condition, then_text, else_text)`. */
  function If<T>(condition: bool, thenText: T, elseText: T): (r: T)
    ensures condition ==> r == thenText
    ensures !condition ==> r == elseText
  {
    if condition then thenText else elseText
  }

  /** `If(condition, then_text)` with the default `else_text=""`. */
  function IfText(condition: bool, thenText: string): (r: string)
    ensures r == If(condition, thenText, "")
    ensures r != "" ==> condition
  {
    if condition then thenText else ""
  }

  /** `pad_text(text, padding)`: every line of `text` with `padding` in front. */
  function PadText(text: string, padding: string): (r: string)
    ensures r == padding + ReplaceNewlines(text, "\n" + padding)
  {
    JoinLines(text, "\n" + padding);
    JoinPrefixed(padding, Lines(text));
    Join(Prefixed(padding, Lines(text)), "\n")
  }

  /** Padding keeps the lines: with a newline-free padding, the lines of the
      result are the lines of the input, each with the padding in front. */
  lemma PadTextLines(text: string, padding: string)
    requires '\n' !in padding
    ensures Lines(PadText(text, padding)) == Prefixed(padding, Lines(text))
    ensures |Lines(PadText(text, padding))| == |Lines(text)|
  {
    var ps := Prefixed(padding, Lines(text));
    LinesHaveNoNewline(text);
    forall i | 0 <= i < |ps| ensures '\n' !in ps[i] {
      assert ps[i] == padding + Lines(text)[i];
    }
    LinesOfJoin(ps);
  }

  /** The default indentation of `pad_text`. */
  const Indent: string := "  "

  /** `wrap_text(text)`: the marker `[[text]]`. */
  function WrapText(text: string): (r: string)
    ensures |r| == |text| + 4
    ensures r[..2] == "[[" && r[|r| - 2..] == "]]"
    ensures r[2..|r| - 2] == text
  {
    "[[" + text + "]]"
  }

  /** Distinct keys give distinct markers. */
  lemma WrapTextInjective(a: string, b: string)
    requires WrapText(a) == WrapText(b)
    ensures a == b
  {
    var w := WrapText(a);
    assert a == w[2..|w| - 2] == b;
  }

  /** `scope_text(text)`: the text indented by two spaces inside braces. */
  function ScopeText(text: string): (r: string)
    ensures r == " {\n" + Indent + ReplaceNewlines(text, "\n" + Indent) + "\n}"
  {
    " {\n" + PadText(text, Indent) + "\n}"
  }

  /** The entries that are not `None`, in order. */
  function Present(texts: seq<Option<string>>): (r: seq<string>)
    ensures |r| <= |texts|
    ensures forall i :: 0 <= i < |r| ==> Some(r[i]) in texts
  {
    if texts == [] then []
    else if texts[|texts| - 1].None? then Present(texts[..|texts| - 1])
    else Present(texts[..|texts| - 1]) + [texts[|texts| - 1].value]
  }

  /** `Present` of a concatenation is the concatenation of `Present`s. */
  lemma {:induction false} PresentConcat(a: seq<Option<string>>, b: seq<Option<string>>)
    ensures Present(a + b) == Present(a) + Present(b)
    decreases |b|
  {
    if b == [] {
      assert a + b == a;
    } else {
      var b' := b[..|b| - 1];
      assert (a + b)[..|a + b| - 1] == a + b';
      PresentConcat(a, b');
    }
  }

  /** A `None` entry contributes nothing. */
  lemma PresentSkipsNone(a: seq<Option<string>>, b: seq<Option<string>>)
    ensures Present(a + [None] + b) == Present(a + b)
  {
    var none: seq<Option<string>> := [None];
    assert none[..0] == [];
    PresentConcat(a + none, b);
    PresentConcat(a, none);
    PresentConcat(a, b);
  }

  /** `list_text(*texts, add_scope)`: the present entries as `- ` bullets,
      one per line, optionally scoped. */
  function ListText(texts: seq<Option<string>>, addScope: bool): (r: string)
    ensures !addScope ==> r == Join(Prefixed("- ", Present(texts)), "\n")
    ensures addScope ==> r == ScopeText(ListText(texts, false))
  {
    var textOut := Join(Prefixed("- ", Present(texts)), "\n");
    if addScope then ScopeText(textOut) else textOut
  }

  /** `None` entries do not show in a bullet list. */
  lemma ListTextSkipsNone(a: seq<Option<string>>, b: seq<Option<string>>, addScope: bool)
    ensures ListText(a + [None] + b, addScope) == ListText(a + b, addScope)
  {
    PresentSkipsNone(a, b);
  }

  /** The entry `f"{i}. {text}"` of a numbered list. */
  function NumberedEntry(i: nat, text: string): string {
    NatToString(i) + ". " + text
  }

  /** The numbered entries of `enumerate_text`: argument `k` (counting from
      one) is labelled `k`, whether or not earlier arguments are `None`. */
  function Numbered(texts: seq<Option<string>>): (r: seq<string>)
  {
    if texts == [] then []
    else
      var init := Numbered(texts[..|texts| - 1]);
      match texts[|texts| - 1]
      case None => init
      case Some(t) => init + [NumberedEntry(|texts|, t)]
  }

  /** There is one numbered entry per present argument. */
  lemma {:induction false} NumberedCount(texts: seq<Option<string>>)
    ensures |Numbered(texts)| == |Present(texts)|
    decreases |texts|
  {
    if texts != [] {
      NumberedCount(texts[..|texts| - 1]);
    }
  }

  /** The entries for a prefix of the arguments are a prefix of the entries. */
  lemma {:induction false} NumberedPrefix(texts: seq<Option<string>>, k: nat)
    requires k <= |texts|
    ensures |Numbered(texts[..k])| <= |Numbered(texts)|
    ensures Numbered(texts[..k]) == Numbered(texts)[..|Numbered(texts[..k])|]
    decreases |texts| - k
  {
    if k < |texts| {
      NumberedPrefix(texts, k + 1);
      assert texts[..k + 1][..k] == texts[..k];
    } else {
      assert texts[..k] == texts;
    }
  }

  /** Argument `j` (counting from zero) is listed with the label `j + 1`:
      an omitted `None` still consumes its number. */
  lemma NumberedLabel(texts: seq<Option<string>>, j: nat)
    requires j < |texts| && texts[j].Some?
    ensures NumberedEntry(j + 1, texts[j].value) in Numbered(texts)
  {
    NumberedPrefix(texts, j + 1);
    var pre := texts[..j + 1];
    assert pre[..|pre| - 1] == texts[..j];
    assert Numbered(pre)[|Numbered(pre)| - 1] == NumberedEntry(j + 1, texts[j].value);
  }

  /** The numbered entries, joined by newlines and optionally scoped. */
  function Enumeration(texts: seq<Option<string>>, addScope: bool): string {
    var textOut := Join(Numbered(texts), "\n");
    if addScope then ScopeText(textOut) else textOut
  }

  /** `enumerate_text(*texts, add_scope)`: a counter runs over every
      argument; present ones are appended with their number. */
  method EnumerateText(texts: seq<Option<string>>, addScope: bool) returns (r: string)
    ensures r == Enumeration(texts, addScope)
  {
    var i := 1;
    var textLs: seq<string> := [];
    for k := 0 to |texts|
      invariant i == k + 1
      invariant textLs == Numbered(texts[..k])
    {
      assert texts[..k + 1][..k] == texts[..k];
      if texts[k].Some? {
        textLs := textLs + [NatToString(i) + ". " + texts[k].value];
      }
      i := i + 1;
    }
    assert texts[..|texts|] == texts;
    var textOut := Join(textLs, "\n");
    if addScope {
      r := ScopeText(textOut);
    } else {
      r := textOut;
    }
  }

  /** `extract_code(code)`: the stripped group of the fenced-block search,
      or the stripped input when there is no fenced block. */
  function ExtractCode(code: string): (r: string)
    ensures FenceSpan(code).None? ==> r == Strip(code)
    ensures FenceSpan(code).Some? ==>
      r == Strip(code[FenceSpan(code).value.0..FenceSpan(code).value.1])
  {
    match FencedBody(code)
    case None => Strip(code)
    case Some(body) => Strip(body)
  }

  /** Text with no fence at all is only stripped. */
  lemma ExtractCodeNoFence(code: string)
    requires !Contains(code, Fence)
    ensures ExtractCode(code) == Strip(code)
  {
  }

  /** A block delimited by fences with a letters-only language tag gives
      back the stripped body. */
  lemma ExtractCodeOfBlock(body: string, tag: string)
    requires forall k :: 0 <= k < |tag| ==> IsAsciiLetter(tag[k])
    ensures ExtractCode(Fence + tag + "\n" + body + "\n" + Fence) == Strip(body)
  {
    FencedBodyOfBlock(body, tag);
    StripTrailingNewline(body);
  }
}
