/** What `easy_prompting/_prompter.py` promises about its history, its
    cache and its choices, proved about the functions that specify the
    methods of `Prompting.Prompter`. */
module PromptingFacts {
  import opened Wrappers
  import opened Text
  import CoreUtils
  import opened Messages
  import Summaries
  import opened Prompting

  // ---------------------------------------------------------------------------
  // The history
  // ---------------------------------------------------------------------------

  /** When `add_message` summarises, the new history is the summary followed
      by a suffix of the old history plus the new message: the dropped
      prefix is non-empty and reached `include_size`, and the kept messages
      are unchanged and in order. */
  lemma SummaryKeepsSuffix(p: Setup, s: State, m: Message) returns (k: nat)
    requires SummaryOk(p.startSize, p.includeSize)
    requires p.startSize.Some? && Length(s.messages + [m]) >= p.startSize.value
    ensures var ms := s.messages + [m];
      1 <= k <= |ms| && Length(ms[..k]) >= p.includeSize.value
      && Added(p, s, m).messages == [SummaryMessage(Fetched(p, s.files, SummaryRequest(ms), None))] + ms[k..]
  {
    var ms := s.messages + [m];
    k := Summaries.ExcludedSuffix(ms, p.includeSize.value, 0);
  }

  /** A summary removes at least `include_size` characters of earlier
      messages: what is left is the summary plus at most the old total minus
      `include_size`. */
  lemma SummaryShrinks(p: Setup, s: State, m: Message)
    requires SummaryOk(p.startSize, p.includeSize)
    requires p.startSize.Some? && Length(s.messages + [m]) >= p.startSize.value
    ensures var summary := Added(p, s, m).messages[0];
      Length(Added(p, s, m).messages) <= |summary.content| + Length(s.messages + [m]) - p.includeSize.value
  {
    var ms := s.messages + [m];
    var inc := p.includeSize.value;
    var kept := Summaries.Excluded(ms, inc);
    var summary := Added(p, s, m).messages[0];
    Summaries.ExcludedShrinks(ms, inc);
    LengthConcat([summary], kept);
    LengthSingle(summary);
  }

  /** Below `start_size`, `add_message` only appends, and never fails. */
  lemma AddBelowStart(p: Setup, s: State, m: Message)
    requires SummaryOk(p.startSize, p.includeSize)
    requires p.startSize.None? || Length(s.messages + [m]) < p.startSize.value
    ensures Added(p, s, m) == State(s.messages + [m], s.files)
    ensures !AddFails(p, s, m)
  {
  }

  /** If the history before the new message stays below `include_size`,
      a summary swallows the new message too: the history becomes the
      summary alone. */
  lemma {:induction false} SummarySwallowsLast(p: Setup, s: State, m: Message)
    requires SummaryOk(p.startSize, p.includeSize)
    requires p.startSize.Some? && Length(s.messages + [m]) >= p.startSize.value
    requires Length(s.messages) < p.includeSize.value
    ensures Added(p, s, m).messages == [SummaryMessage(Fetched(p, s.files, SummaryRequest(s.messages + [m]), None))]
  {
    var ms := s.messages + [m];
    var inc := p.includeSize.value;
    assert ms[..|s.messages|] == s.messages;
    assert ms[..|ms|] == ms;
    forall k | 0 <= k < |s.messages|
      ensures Summaries.RunningTotal(ms, k) < inc
    {
      Summaries.PrefixLength(ms, k + 1, |s.messages|);
    }
    Summaries.ExcludedAtFirstReach(ms, inc, |s.messages|, 0);
  }

  /** The defect of `get_completion` as written: when the completion is
      what pushes the history over both sizes, the last message of the
      history is the developer summary, not the assistant's completion, so
      `GetCompletionAsWritten` returns the summary text. */
  lemma AsWrittenReturnsSummary(p: Setup, s: State, stop: Option<string>)
    requires SummaryOk(p.startSize, p.includeSize)
    requires p.startSize.Some? && Length(s.messages) < p.includeSize.value
    requires Length(s.messages) + |Completion(p, s, stop)| >= p.startSize.value
    ensures var after := Completed(p, s, stop).messages;
      |after| == 1 && after[0].role == "developer"
      && after[0].content == SummaryMessage(Fetched(p, FilesAfter(p, s.files, s.messages, stop),
           SummaryRequest(s.messages + [Message(Completion(p, s, stop), "assistant")]), None)).content
  {
    var m := Message(Completion(p, s, stop), "assistant");
    var s1 := State(s.messages, FilesAfter(p, s.files, s.messages, stop));
    LengthConcat(s.messages, [m]);
    LengthSingle(m);
    SummarySwallowsLast(p, s1, m);
  }

  /** The same defect seen through `get_choice`: once the summary swallows
      the answer, the options are looked up in the summary. An answer that
      names the first option then raises `ChoiceError` as written, when the
      summary holds no option key, although the corrected choice finds it. */
  lemma AsWrittenChoiceReadsSummary(p: Setup, s: State, key: string, names: seq<string>, createKey: string -> string)
    requires SummaryOk(p.startSize, p.includeSize) && KeyFunction(createKey) && key != ""
    requires p.startSize.Some? && Length(s.messages) < p.includeSize.value
    requires Length(s.messages) + |Completion(p, s, Some(key))| >= p.startSize.value
    requires var summary := SummaryMessage(Fetched(p, FilesAfter(p, s.files, s.messages, Some(key)),
               SummaryRequest(s.messages + [Message(Completion(p, s, Some(key)), "assistant")]), None)).content;
      forall i :: 0 <= i < |names| ==> !Contains(CutStop(summary, Some(key)), createKey(names[i]))
    requires names != [] && Contains(CutStop(Completion(p, s, Some(key)), Some(key)), createKey(names[0]))
    ensures Chosen(names, createKey, CutStop(LastContent(Completed(p, s, Some(key)).messages), Some(key))).Failure?
    ensures Chosen(names, createKey, CutStop(Completion(p, s, Some(key)), Some(key))).Success?
  {
    AsWrittenReturnsSummary(p, s, Some(key));
    var answer := CutStop(Completion(p, s, Some(key)), Some(key));
    assert FirstKey(names, createKey, answer, 0) < |names|;
  }

  // ---------------------------------------------------------------------------
  // The cache
  // ---------------------------------------------------------------------------

  /** A cache hit returns the stored text and consults neither the model
      nor changes any file. */
  lemma CacheHit(p: Setup, files: map<string, string>, ms: seq<Message>, stop: Option<string>)
    requires p.cachePath.Some? && CacheFile(p.cachePath.value, p.hash, ms) in files
    ensures Fetched(p, files, ms, stop) == files[CacheFile(p.cachePath.value, p.hash, ms)]
    ensures FilesAfter(p, files, ms, stop) == files
  {
  }

  /** A cache miss asks the model and stores its answer under the
      history's file, leaving every other file as it was. */
  lemma CacheMiss(p: Setup, files: map<string, string>, ms: seq<Message>, stop: Option<string>)
    requires p.cachePath.Some? && CacheFile(p.cachePath.value, p.hash, ms) !in files
    ensures Fetched(p, files, ms, stop) == p.llm(ms, stop)
    ensures FilesAfter(p, files, ms, stop) == files[CacheFile(p.cachePath.value, p.hash, ms) := p.llm(ms, stop)]
  {
  }

  /** With a cache, asking again for the same history replays the first
      answer, whatever stop string is passed the second time: the key does
      not depend on the stop string. */
  lemma CacheReplays(p: Setup, files: map<string, string>, ms: seq<Message>, stop: Option<string>, again: Option<string>)
    requires p.cachePath.Some?
    ensures var stored := FilesAfter(p, files, ms, stop);
      Fetched(p, stored, ms, again) == Fetched(p, files, ms, stop)
      && FilesAfter(p, stored, ms, again) == stored
  {
  }

  // ---------------------------------------------------------------------------
  // Completions
  // ---------------------------------------------------------------------------

  /** The text `get_completion` returns is a prefix of the completion the
      model gave, since the appended stop string is always found. */
  lemma CutStopIsPrefix(c: string, stop: string)
    requires stop != ""
    ensures var r := CutStop(c + stop, Some(stop));
      |r| <= |c| && r == c[..|r|]
  {
    var t := c + stop;
    assert OccursAt(t, stop, |c|) by { assert t[|c|..|c| + |stop|] == stop; }
    var r := CutStop(t, Some(stop));
    assert r == t[..|r|];
  }

  /** When the stop string cannot be found before the end of the model's
      answer, `get_completion` returns that answer unchanged. */
  lemma CutStopKeepsCompletion(c: string, stop: string)
    requires stop != ""
    requires forall j: nat :: j < |c| ==> !OccursAt(c + stop, stop, j)
    ensures CutStop(c + stop, Some(stop)) == c
  {
    assert c + stop + "" == c + stop;
    SplitOnceAt(c, stop, "");
  }

  // ---------------------------------------------------------------------------
  // Choices
  // ---------------------------------------------------------------------------

  /** `get_choice` chooses by declared order, not by position in the text:
      it fails exactly when no option's key occurs, and otherwise picks the
      first declared option `i` whose key occurs anywhere, with the stripped
      text after that key's first occurrence. */
  lemma ChoiceIsFirstDeclared(names: seq<string>, createKey: string -> string, completion: string) returns (i: nat)
    requires KeyFunction(createKey)
    ensures var r := Chosen(names, createKey, completion);
      (r.Failure? <==> forall k :: 0 <= k < |names| ==> !Contains(completion, createKey(names[k])))
      && (r.Failure? ==> r.error == ChoiceFailed(completion))
    ensures var r := Chosen(names, createKey, completion);
      r.Success? ==>
        i < |names| && Contains(completion, createKey(names[i]))
        && (forall k :: 0 <= k < i ==> !Contains(completion, createKey(names[k])))
        && r.value.name == names[i]
        && r.value.data == Strip(SplitOnce(completion, createKey(names[i])).value.1)
  {
    i := FirstKey(names, createKey, completion, 0);
  }

  // ---------------------------------------------------------------------------
  // Logging
  // ---------------------------------------------------------------------------

  /** The text `add_message` prints starts with the upper-cased role and
      ends with the content, every line of it padded by `" | "`. */
  lemma LogTextShape(m: Message, tag: Option<string>, index: int)
    ensures var head := Upper(m.role) + " " + CoreUtils.IfText(tag.Some?, "(" + (if tag.Some? then tag.value else "") + ") ")
                        + "(" + IntToString(index) + "):\n";
      LogText(m, tag, index) == head + " | " + ReplaceNewlines(m.content, "\n | ")
  {
    assert "\n" + " | " == "\n | ";
  }
}
