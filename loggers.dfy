/** The prebuilt loggers of `easy_prompting/prebuilt/_loggers.py`: the text
    a printing logger writes for one message, `LogList`, which hands every
    message to several loggers, and `LogReadable`, which crops the content
    of chosen later messages to a number of lines. */
module Loggers {
  import opened Wrappers
  import opened Text
  import CoreUtils
  import opened Messages
  import opened Logging

  // ---------------------------------------------------------------------------
  // The text of a logged message
  // ---------------------------------------------------------------------------

  /** `repr` of an optional tag. */
  function TagRepr(tag: Option<string>): (r: string)
    ensures '\n' !in r
  {
    if tag.None? then "None" else Quoted(tag.value)
  }

  /** `str` of an optional index. */
  function IdxText(idx: Option<int>): (r: string)
    ensures '\n' !in r
  {
    if idx.None? then "None" else IntToString(idx.value)
  }

  /** The first line `message_to_str` writes. */
  function Header(m: Message, idx: Option<int>, tag: Option<string>): (r: string)
    ensures '\n' !in r
  {
    var t, q, i := TagRepr(tag), Quoted(m.role), IdxText(idx);
    assert '\n' !in "Message(tag=" + t;
    assert '\n' !in "Message(tag=" + t + ", role=" + q;
    "Message(tag=" + t + ", role=" + q + ", idx=" + i + "):"
  }

  /** `message_to_str(message, idx, tag, padding)`: the header line, then the
      padded content. */
  function MessageToStr(m: Message, idx: Option<int>, tag: Option<string>, padding: string): string {
    Header(m, idx, tag) + "\n" + CoreUtils.PadText(m.content, padding)
  }

  /** The text is one header line naming tag, role and index, followed by
      every line of the content with the padding in front. */
  lemma MessageToStrLines(m: Message, idx: Option<int>, tag: Option<string>, padding: string)
    requires '\n' !in padding
    ensures Lines(MessageToStr(m, idx, tag, padding)) == [Header(m, idx, tag)] + Prefixed(padding, Lines(m.content))
  {
    var head := Header(m, idx, tag);
    LinesConcat(head, CoreUtils.PadText(m.content, padding));
    LinesPlain(head);
    CoreUtils.PadTextLines(m.content, padding);
  }

  /** What a printing logger (`LogPrint`, `LogFunc`, `LogFile`) with the given
      padding writes for each event of a journal; closing writes nothing. */
  function Printed(events: seq<Event>, sink: string, padding: string): (r: seq<string>)
    ensures |r| <= |events|
  {
    if events == [] then []
    else
      var last := events[|events| - 1];
      Printed(events[..|events| - 1], sink, padding)
      + (if last.Logged? && last.sink == sink then [MessageToStr(last.message, last.idx, last.tag, padding)] else [])
  }

  // ---------------------------------------------------------------------------
  // LogList
  // ---------------------------------------------------------------------------

  /** The events `LogList._log` causes: one for every verbose logger of the
      list, in list order. */
  function Forwarded(loggers: seq<Logger>, m: Message, idx: Option<int>, tag: Option<string>): (r: seq<Event>)
    reads loggers
    ensures |r| <= |loggers|
  {
    if loggers == [] then []
    else
      var last := loggers[|loggers| - 1];
      Forwarded(loggers[..|loggers| - 1], m, idx, tag) + (if last.verbose then [Logged(last.name, m, idx, tag)] else [])
  }

  /** One more logger of the list adds its own event, if it is verbose. */
  lemma ForwardedStep(loggers: seq<Logger>, i: nat, m: Message, idx: Option<int>, tag: Option<string>)
    requires i < |loggers|
    ensures Forwarded(loggers[..i + 1], m, idx, tag)
      == Forwarded(loggers[..i], m, idx, tag) + (if loggers[i].verbose then [Logged(loggers[i].name, m, idx, tag)] else [])
  {
    assert loggers[..i + 1][..i] == loggers[..i];
  }

  /** `ForwardedStep` for every position of the list. */
  lemma ForwardedSteps(loggers: seq<Logger>, m: Message, idx: Option<int>, tag: Option<string>)
    ensures forall i :: 0 <= i < |loggers| ==>
      Forwarded(loggers[..i + 1], m, idx, tag)
      == Forwarded(loggers[..i], m, idx, tag) + (if loggers[i].verbose then [Logged(loggers[i].name, m, idx, tag)] else [])
  {
    forall i | 0 <= i < |loggers| {
      ForwardedStep(loggers, i, m, idx, tag);
    }
  }

  /** The events `LogList.close` causes: every logger closes, in list order. */
  function ClosedAll(loggers: seq<Logger>): (r: seq<Event>)
    ensures |r| == |loggers|
    ensures forall i :: 0 <= i < |loggers| ==> r[i] == Closed(loggers[i].name)
  {
    seq(|loggers|, i requires 0 <= i < |loggers| => Closed(loggers[i].name))
  }

  /** When every logger of the list is verbose, each receives the message
      exactly once, in list order. */
  lemma {:induction false} ForwardedToAll(loggers: seq<Logger>, m: Message, idx: Option<int>, tag: Option<string>)
    requires forall i :: 0 <= i < |loggers| ==> loggers[i].verbose
    ensures Forwarded(loggers, m, idx, tag) == seq(|loggers|, i requires 0 <= i < |loggers| reads loggers => Logged(loggers[i].name, m, idx, tag))
    decreases |loggers|
  {
    if loggers != [] {
      var init := loggers[..|loggers| - 1];
      ForwardedToAll(init, m, idx, tag);
    }
  }

  /** A quiet logger of the list receives nothing. */
  lemma {:induction false} ForwardedSkipsQuiet(loggers: seq<Logger>, m: Message, idx: Option<int>, tag: Option<string>, k: nat)
    requires k < |loggers| && !loggers[k].verbose
    requires forall i :: 0 <= i < |loggers| && i != k ==> loggers[i].name != loggers[k].name
    ensures Logged(loggers[k].name, m, idx, tag) !in Forwarded(loggers, m, idx, tag)
    decreases |loggers|
  {
    var init := loggers[..|loggers| - 1];
    if k < |init| {
      ForwardedSkipsQuiet(init, m, idx, tag, k);
    } else {
      ForwardedSilent(init, m, idx, tag, loggers[k].name);
    }
  }

  /** No logger named `name` in the list, no event for `name`. */
  lemma {:induction false} ForwardedSilent(loggers: seq<Logger>, m: Message, idx: Option<int>, tag: Option<string>, name: string)
    requires forall i :: 0 <= i < |loggers| ==> loggers[i].name != name
    ensures Logged(name, m, idx, tag) !in Forwarded(loggers, m, idx, tag)
    decreases |loggers|
  {
    if loggers != [] {
      ForwardedSilent(loggers[..|loggers| - 1], m, idx, tag, name);
    }
  }

  /** `LogList(*loggers)`: hands every message to each of its loggers. */
  class LogList {
    var verbose: bool
    var loggers: seq<Logger>
    const journal: Journal

    /** All loggers write to the same world. */
    predicate Valid()
      reads this, loggers
    {
      forall i :: 0 <= i < |loggers| ==> loggers[i].journal == journal
    }

    /** The loggers given write to `journal`, the world the list observes. */
    constructor(loggers: seq<Logger>, journal: Journal)
      requires forall i :: 0 <= i < |loggers| ==> loggers[i].journal == journal
      ensures verbose && this.loggers == loggers && this.journal == journal
      ensures Valid()
    {
      verbose := true;
      this.loggers := loggers;
      this.journal := journal;
    }

    /** `set_verbose(verbose)`, inherited from `Logger`: the flag that
        `log` consults; the loggers are kept. */
    method SetVerbose(verbose: bool)
      modifies this
      ensures this.verbose == verbose && loggers == old(loggers)
      ensures old(Valid()) ==> Valid()
    {
      this.verbose := verbose;
    }

    /** `set_loggers(*loggers)`: the new loggers write to the list's journal. */
    method SetLoggers(loggers: seq<Logger>)
      requires forall i :: 0 <= i < |loggers| ==> loggers[i].journal == journal
      modifies this
      ensures this.loggers == loggers && verbose == old(verbose)
      ensures Valid()
    {
      this.loggers := loggers;
    }

    /** `log(message, idx, tag)`: when the list is verbose, every logger of
        it is asked to log the message, in order, each under its own flag. */
    method Log(m: Message, idx: Option<int>, tag: Option<string>)
      requires Valid()
      modifies journal
      ensures journal.events == old(journal.events) + (if verbose then Forwarded(loggers, m, idx, tag) else [])
    {
      if !verbose {
        return;
      }
      ForwardedSteps(loggers, m, idx, tag);
      for i := 0 to |loggers|
        invariant journal.events == old(journal.events) + old(Forwarded(loggers[..i], m, idx, tag))
      {
        loggers[i].Log(m, idx, tag);
      }
      assert loggers[..|loggers|] == loggers;
    }

    /** `close()`: every logger of the list is closed, in order. */
    method Close()
      requires Valid()
      modifies journal
      ensures journal.events == old(journal.events) + ClosedAll(loggers)
    {
      for i := 0 to |loggers|
        invariant journal.events == old(journal.events) + ClosedAll(loggers[..i])
      {
        loggers[i].Close();
      }
      assert loggers[..|loggers|] == loggers;
    }
  }

  // ---------------------------------------------------------------------------
  // LogReadable
  // ---------------------------------------------------------------------------

  /** The last line a crop leaves: how many lines it removed. */
  function CropNote(k: int): string {
    "... (" + IntToString(k) + " line(s) cropped)"
  }

  /** The lines `_log` keeps under `limit`: all of them if there are at most
      `limit`, otherwise `lines[:limit]` and a note of how many were cut. */
  function CropLines(lines: seq<string>, limit: int): seq<string> {
    if |lines| > limit then TakePy(lines, limit) + [CropNote(|DropPy(lines, limit)|)] else lines
  }

  /** The message `LogReadable._log` hands on: cropped to the limit at
      offset 0, if there is one. */
  function Cropped(m: Message, limits: map<int, int>): (r: Message)
    ensures r.role == m.role
    ensures 0 !in limits ==> r == m
  {
    if 0 !in limits then m
    else Message(Join(CropLines(Lines(m.content), limits[0]), "\n"), m.role)
  }

  /** The offsets after one logged message: every positive offset moves
      one closer, and offset 0 and below are gone. */
  function Shifted(limits: map<int, int>): map<int, int> {
    var keys := set o | o in limits && o > 0 :: o - 1;
    map k | k in keys :: limits[k + 1]
  }

  /** An offset is in the shifted table exactly when the offset one above it
      was a positive offset of the old one, with the same limit. */
  lemma ShiftedAt(limits: map<int, int>, k: int)
    ensures k in Shifted(limits) <==> k >= 0 && k + 1 in limits
    ensures k in Shifted(limits) ==> Shifted(limits)[k] == limits[k + 1]
  {
    if k >= 0 && k + 1 in limits {
      var o := k + 1;
      assert o in limits && o > 0 && o - 1 == k;
    }
  }

  /** Content of at most `limit` lines is handed on unchanged. */
  lemma CropKeepsShort(m: Message, limits: map<int, int>)
    requires 0 in limits ==> |Lines(m.content)| <= limits[0]
    ensures Cropped(m, limits) == m
  {
    JoinLinesIdentity(m.content);
  }

  /** Longer content keeps its first `limit` lines, then one line saying how
      many were cropped. */
  lemma CropShowsHead(m: Message, limits: map<int, int>)
    requires 0 in limits && 0 <= limits[0] < |Lines(m.content)|
    ensures var lines := Lines(m.content);
      Lines(Cropped(m, limits).content) == lines[..limits[0]] + [CropNote(|lines| - limits[0])]
  {
    var lines, limit := Lines(m.content), limits[0];
    var kept := lines[..limit] + [CropNote(|lines| - limit)];
    CropLinesLong(lines, limit);
    LinesHaveNoNewline(m.content);
    CropHasNoNewline(lines, limit);
    assert Cropped(m, limits).content == Join(kept, "\n");
    LinesOfJoin(kept);
  }

  /** Cropping lines that hold no newline gives lines that hold none. */
  lemma CropHasNoNewline(lines: seq<string>, limit: nat)
    requires limit < |lines|
    requires forall i :: 0 <= i < |lines| ==> '\n' !in lines[i]
    ensures var kept := lines[..limit] + [CropNote(|lines| - limit)];
      forall i :: 0 <= i < |kept| ==> '\n' !in kept[i]
  {
    var note := CropNote(|lines| - limit);
    var kept := lines[..limit] + [note];
    assert '\n' !in note;
    forall i | 0 <= i < |kept| ensures '\n' !in kept[i] {
      if i < limit {
        assert kept[i] == lines[i];
      } else {
        assert kept[i] == note;
      }
    }
  }

  /** Cropping a list longer than the limit keeps its first `limit` lines
      and appends the note. */
  lemma CropLinesLong(lines: seq<string>, limit: int)
    requires 0 <= limit < |lines|
    ensures CropLines(lines, limit) == lines[..limit] + [CropNote(|lines| - limit)]
  {
    assert |DropPy(lines, limit)| == |lines| - limit;
  }

  /** The crop table after `n` logged messages. */
  ghost function ShiftedTimes(limits: map<int, int>, n: nat): map<int, int> {
    if n == 0 then limits else Shifted(ShiftedTimes(limits, n - 1))
  }

  /** After `n >= 1` messages, the crop at offset `k` is the one that was
      added at offset `k + n`. */
  lemma {:induction false} ShiftedTimesAt(limits: map<int, int>, n: nat, k: int)
    requires n >= 1
    ensures k in ShiftedTimes(limits, n) <==> k >= 0 && k + n in limits
    ensures k in ShiftedTimes(limits, n) ==> ShiftedTimes(limits, n)[k] == limits[k + n]
  {
    var prev := ShiftedTimes(limits, n - 1);
    ShiftedAt(prev, k);
    if n > 1 {
      ShiftedTimesAt(limits, n - 1, k + 1);
    }
  }

  /** Each crop applies to exactly one message: the `n`-th message handed to
      a verbose `LogReadable` (counting from 0) is cropped exactly when a
      crop was added at offset `n`, and then to that crop's limit. */
  lemma CropSchedule(limits: map<int, int>, n: nat)
    ensures 0 in ShiftedTimes(limits, n) <==> n in limits
    ensures n in limits ==> ShiftedTimes(limits, n)[0] == limits[n]
  {
    if n >= 1 {
      ShiftedTimesAt(limits, n, 0);
    }
  }

  /** A non-empty set of offsets has a member to visit next; the order of
      the visits does not matter, since each lands on a different key. */
  lemma HasOffset(offsets: set<int>)
    requires |offsets| > 0
    ensures exists o :: o in offsets
  {
    if forall x :: x !in offsets {
      assert false;
    }
  }

  /** The loop at the end of `_log` that builds the new crop table. */
  method ShiftCrops(limits: map<int, int>) returns (shifted: map<int, int>)
    ensures shifted == Shifted(limits)
  {
    shifted := map[];
    var rest := limits.Keys;
    while |rest| > 0
      invariant rest <= limits.Keys
      invariant forall k :: k in shifted <==> k >= 0 && k + 1 in limits && k + 1 !in rest
      invariant forall k :: k in shifted ==> shifted[k] == limits[k + 1]
      decreases |rest|
    {
      HasOffset(rest);
      var offset :| offset in rest;
      if offset > 0 {
        shifted := shifted[offset - 1 := limits[offset]];
      }
      rest := rest - {offset};
    }
    forall k | k in shifted || k in Shifted(limits)
      ensures k in shifted && k in Shifted(limits) && shifted[k] == Shifted(limits)[k]
    {
      ShiftedAt(limits, k);
    }
    assert shifted.Keys == Shifted(limits).Keys;
  }

  /** `add_crop(limit, offset)` keeps the smaller limit for an offset. */
  function WithCrop(limits: map<int, int>, limit: int, offset: int): (r: map<int, int>)
    ensures r.Keys == limits.Keys + {offset}
    ensures forall k :: k in limits && k != offset ==> r[k] == limits[k]
    ensures r[offset] <= limit && (offset in limits ==> r[offset] <= limits[offset])
    ensures r[offset] == limit || (offset in limits && r[offset] == limits[offset])
  {
    limits[offset := if offset in limits && limits[offset] < limit then limits[offset] else limit]
  }

  /** `LogReadable(logger)`: wraps one logger and crops the messages it
      hands on. */
  class LogReadable {
    var verbose: bool
    var limits: map<int, int>
    var logger: Logger

    constructor(logger: Logger)
      ensures verbose && limits == map[] && this.logger == logger
    {
      verbose := true;
      limits := map[];
      this.logger := logger;
    }

    /** `set_verbose(verbose)`, inherited from `Logger`: the flag that
        `log` consults; the crops and the inner logger are kept. */
    method SetVerbose(verbose: bool)
      modifies this
      ensures this.verbose == verbose && limits == old(limits) && logger == old(logger)
    {
      this.verbose := verbose;
    }

    /** `set_logger(logger)`. */
    method SetLogger(logger: Logger)
      modifies this
      ensures this.logger == logger && limits == old(limits) && verbose == old(verbose)
    {
      this.logger := logger;
    }

    /** `add_crop(limit, offset)`. */
    method AddCrop(limit: int, offset: int)
      modifies this
      ensures limits == WithCrop(old(limits), limit, offset)
      ensures logger == old(logger) && verbose == old(verbose)
    {
      limits := limits[offset := if offset in limits then (if limits[offset] < limit then limits[offset] else limit) else limit];
    }

    /** `log(message, idx, tag)`: when verbose, crop the message by the limit
        at offset 0, move every crop one message closer, and hand the
        message to the wrapped logger. */
    method Log(m: Message, idx: Option<int>, tag: Option<string>)
      modifies this, logger.journal
      ensures logger == old(logger) && verbose == old(verbose)
      ensures !verbose ==> limits == old(limits) && logger.journal.events == old(logger.journal.events)
      ensures verbose ==> limits == Shifted(old(limits))
      ensures verbose ==>
        logger.journal.events == old(logger.journal.events) + (if logger.verbose then [Logged(logger.name, Cropped(m, old(limits)), idx, tag)] else [])
    {
      if !verbose {
        return;
      }
      var message := m;
      if 0 in limits {
        var limit := limits[0];
        var lines := Lines(m.content);
        if |lines| > limit {
          var cropped := DropPy(lines, limit);
          lines := TakePy(lines, limit) + [CropNote(|cropped|)];
        }
        message := Message(Join(lines, "\n"), m.role);
      }
      var shifted := ShiftCrops(limits);
      limits := shifted;
      logger.Log(message, idx, tag);
    }

    /** `close()`: closes the wrapped logger. */
    method Close()
      modifies logger.journal
      ensures logger.journal.events == old(logger.journal.events) + [Closed(logger.name)]
    {
      logger.Close();
    }
  }
}
