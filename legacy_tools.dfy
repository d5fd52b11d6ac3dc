/** The helpers of `easy_prompt/tools.py`: a regular-expression
    `extract_code` that returns its input untouched when no fenced block
    matches, and the conditional-text lambdas. */
module LegacyTools {
  import opened Wrappers
  import opened Text
  import opened CodeFence
  import CoreUtils

  /** `extract_code(code)`: the stripped group of the fenced-block search,
      or the input itself when nothing matches. */
  function ExtractCode(code: string): (r: string)
    ensures FenceSpan(code).None? ==> r == code
    ensures FenceSpan(code).Some? ==> r == CoreUtils.ExtractCode(code)
  {
    match FencedBody(code)
    case None => code
    case Some(body) => Strip(body)
  }

  /** The two regular-expression copies differ only in stripping the
      unmatched input: the copy in `easy_prompting/_utils.py` is this one
      followed by a strip. */
  lemma ExtractCodeCopiesAgree(code: string)
    ensures CoreUtils.ExtractCode(code) == Strip(ExtractCode(code))
  {
    if FencedBody(code).Some? {
      StripIdempotent(FencedBody(code).value);
    }
  }

  /** A delimited block with a letters-only tag gives back the stripped body. */
  lemma ExtractCodeOfBlock(body: string, tag: string)
    requires forall k :: 0 <= k < |tag| ==> IsAsciiLetter(tag[k])
    ensures ExtractCode(Fence + tag + "\n" + body + "\n" + Fence) == Strip(body)
  {
    FencedBodyOfBlock(body, tag);
    StripTrailingNewline(body);
  }

  /** `If = lambda a, b: b if a else ""`. */
  function If(a: bool, b: string): (r: string)
    ensures r == CoreUtils.If(a, b, "")
  {
    if a then b else ""
  }

  /** `IfNot = lambda a, b: "" if a else b`. */
  function IfNot(a: bool, b: string): (r: string)
    ensures r == If(!a, b)
  {
    if a then "" else b
  }

  /** `IfElse = lambda a, b, c: b if a else c`. */
  function IfElse(a: bool, b: string, c: string): (r: string)
    ensures r == CoreUtils.If(a, b, c)
    ensures c == "" ==> r == If(a, b)
  {
    if a then b else c
  }

  /** Exactly one of `If` and `IfNot` yields the text. */
  lemma IfIfNotSplit(a: bool, b: string)
    ensures If(a, b) + IfNot(a, b) == b
  {
  }
}
