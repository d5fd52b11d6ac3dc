/** `FormatLogger` of `easy_prompting/prebuilt/_logger.py`: a text stream
    that hands everything written to it on to a target stream, cut to at
    most `max_lines` lines plus a line saying how many were hidden. */
module FormatLogging {
  import opened Wrappers
  import opened Text

  /** The stream a `FormatLogger` writes to: what it received, in order,
      and how often it was flushed. */
  class Target {
    var written: seq<string>
    var flushes: nat

    constructor()
      ensures written == [] && flushes == 0
    {
      written := [];
      flushes := 0;
    }
  }

  /** The line that replaces the hidden ones. */
  function HiddenNote(hidden: int): string {
    IntToString(hidden) + " LINE(S) WERE HIDDEN"
  }

  /** What `write(text)` hands to the target: the text itself when there is
      no limit or it has at most `max_lines` lines, otherwise `lines[:max_lines]`
      and the note. */
  function Formatted(text: string, maxLines: Option<int>): string {
    var lines := Lines(text);
    if maxLines.Some? && |lines| > maxLines.value then
      Join(TakePy(lines, maxLines.value) + [HiddenNote(|lines| - maxLines.value)], "\n")
    else Join(lines, "\n")
  }

  /** Without a limit, or within it, the text is handed on unchanged. */
  lemma FormattedKeepsShort(text: string, maxLines: Option<int>)
    requires maxLines.None? || |Lines(text)| <= maxLines.value
    ensures Formatted(text, maxLines) == text
  {
    JoinLinesIdentity(text);
  }

  /** Over a non-negative limit, the target receives exactly `max_lines + 1`
      lines: the first `max_lines` of the text and the note with the number
      of lines hidden. */
  lemma FormattedHides(text: string, maxLines: int)
    requires 0 <= maxLines < |Lines(text)|
    ensures var lines := Lines(text);
      Lines(Formatted(text, Some(maxLines))) == lines[..maxLines] + [HiddenNote(|lines| - maxLines)]
    ensures |Lines(Formatted(text, Some(maxLines)))| == maxLines + 1
  {
    var lines := Lines(text);
    var kept := lines[..maxLines] + [HiddenNote(|lines| - maxLines)];
    LinesHaveNoNewline(text);
    assert '\n' !in HiddenNote(|lines| - maxLines);
    assert forall i :: 0 <= i < |kept| ==> '\n' !in kept[i] by {
      forall i | 0 <= i < |kept| ensures '\n' !in kept[i] {
        if i < maxLines {
          assert kept[i] == lines[i];
        }
      }
    }
    LinesOfJoin(kept);
  }

  class FormatLogger {
    var target: Target
    var maxLines: Option<int>

    /** `FormatLogger(target)`: no line limit. */
    constructor(target: Target)
      ensures this.target == target && maxLines == None
    {
      this.target := target;
      maxLines := None;
    }

    /** `set_target(target)`. */
    method SetTarget(target: Target)
      modifies this
      ensures this.target == target && maxLines == old(maxLines)
    {
      this.target := target;
    }

    /** `set_max_lines(n)`. */
    method SetMaxLines(n: Option<int>)
      modifies this
      ensures maxLines == n && target == old(target)
    {
      maxLines := n;
    }

    /** `get_copy()`: a new logger on the same target with the same limit. */
    method GetCopy() returns (c: FormatLogger)
      ensures fresh(c) && c.target == target && c.maxLines == maxLines
    {
      c := new FormatLogger(target);
      c.maxLines := maxLines;
    }

    /** `write(text)`: the target receives the formatted text; the result is
        the length of the text given, not of what was written. */
    method Write(text: string) returns (n: int)
      modifies target
      ensures target.written == old(target.written) + [Formatted(text, maxLines)]
      ensures target.flushes == old(target.flushes)
      ensures n == |text|
    {
      var output := Lines(text);
      var hidden := 0;
      if maxLines.Some? && |output| > maxLines.value {
        hidden := |output| - maxLines.value;
        output := TakePy(output, maxLines.value);
        output := output + [HiddenNote(hidden)];
      }
      target.written := target.written + [Join(output, "\n")];
      return |text|;
    }

    /** `flush()`: flushes the target. */
    method Flush()
      modifies target
      ensures target.flushes == old(target.flushes) + 1 && target.written == old(target.written)
    {
      target.flushes := target.flushes + 1;
    }
  }
}
