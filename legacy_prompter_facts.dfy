/** What `easy_prompt/prompter.py` promises about its history, its cache
    and its choices, proved about the functions that specify the methods of
    `LegacyPrompting.Prompter`. */
module LegacyPromptingFacts {
  import opened Wrappers
  import opened Text
  import opened Messages
  import Summaries
  import LegacyOption
  import Prompting
  import opened LegacyPrompting

  // ---------------------------------------------------------------------------
  // The history
  // ---------------------------------------------------------------------------

  /** A triggered summary leaves the summary followed by a suffix of the
      history: the dropped prefix is non-empty and reached `include_size`,
      and the kept messages are unchanged and in order. */
  lemma SummaryKeepsSuffix(p: Setup, ms: seq<Message>) returns (k: nat)
    requires Prompting.SummaryOk(p.startSize, p.includeSize)
    requires p.startSize.Some? && Length(ms) >= p.startSize.value && p.cachePath.None?
    ensures 1 <= k <= |ms| && Length(ms[..k]) >= p.includeSize.value
    ensures Summarizing(p, ms).messages == [SummaryMessage(p.llm(SummaryRequest(ms), None))] + ms[k..]
  {
    k := Summaries.ExcludedSuffix(ms, p.includeSize.value, 0);
  }

  /** The summariser is shown every message of the history it replaces. */
  lemma SummaryShowsAll(ms: seq<Message>, i: nat)
    requires i < |ms|
    ensures Contains(SummaryRequest(ms)[0].content, Summaries.Turn(ms[i]))
  {
    var conversation := Summaries.Conversation(ms);
    Summaries.ConversationShowsAll(ms, i);
    ContainsMiddle(SummaryInstruction, conversation, "");
    assert SummaryInstruction + conversation + "" == SummaryRequest(ms)[0].content;
    ContainsTrans(SummaryRequest(ms)[0].content, conversation, Summaries.Turn(ms[i]));
  }

  /** If the history before the last message stays below `include_size`, a
      summary swallows the last message too. */
  lemma {:induction false} SummarySwallowsLast(p: Setup, ms: seq<Message>, m: Message)
    requires Prompting.SummaryOk(p.startSize, p.includeSize)
    requires p.startSize.Some? && Length(ms + [m]) >= p.startSize.value && p.cachePath.None?
    requires Length(ms) < p.includeSize.value
    ensures Summarizing(p, ms + [m]).messages == [SummaryMessage(p.llm(SummaryRequest(ms + [m]), None))]
  {
    var all := ms + [m];
    var inc := p.includeSize.value;
    assert all[..|ms|] == ms;
    assert all[..|all|] == all;
    forall k | 0 <= k < |ms|
      ensures Summaries.RunningTotal(all, k) < inc
    {
      Summaries.PrefixLength(all, k + 1, |ms|);
    }
    Summaries.ExcludedAtFirstReach(all, inc, |ms|, 0);
  }

  /** The defect of `get_completion` as written: when the completion pushes
      a short history over `start_size`, the history afterwards is the
      summary alone, so the last message, which `GetCompletionAsWritten`
      returns, is the developer summary and not the completion. */
  lemma AsWrittenReturnsSummary(p: Setup, files: map<string, string>, ms: seq<Message>, stop: Option<string>)
    requires Prompting.SummaryOk(p.startSize, p.includeSize)
    requires p.startSize.Some? && p.cachePath.None? && Length(ms) < p.includeSize.value
    requires Length(ms) + |p.llm(ms, stop)| >= p.startSize.value
    ensures var completion := Fetched(p, files, ms, stop).value;
      var after := Summarizing(p, ms + [Message(completion, "assistant")]).messages;
      |after| == 1 && after[|after| - 1].role == "developer"
      && after[|after| - 1].content == SummaryMessage(p.llm(SummaryRequest(ms + [Message(completion, "assistant")]), None)).content
  {
    var m := Message(p.llm(ms, stop), "assistant");
    LengthConcat(ms, [m]);
    LengthSingle(m);
    SummarySwallowsLast(p, ms, m);
  }

  /** The same defect seen through `get_choice`: once the summary swallows
      an answer that names an option, the reply read is the summary message,
      whose text before the first `:` is its lead sentence. As written,
      `get_choice` raises `PromptError` for that invalid name; the answer
      itself would have chosen the option. */
  lemma AsWrittenChoiceReadsSummary(p: Setup, files: map<string, string>, ms: seq<Message>,
                                    options: seq<LegacyOption.PromptOption>, i: nat, data: string)
    requires Prompting.SummaryOk(p.startSize, p.includeSize)
    requires p.startSize.Some? && p.cachePath.None? && Length(ms) < p.includeSize.value
    requires i < |options| && ':' !in options[i].name && Strip(options[i].name) == options[i].name
    requires p.llm(ms, Some(LegacyOption.Stop)) == options[i].name + LegacyOption.Separator + data
    requires Length(ms) + |p.llm(ms, Some(LegacyOption.Stop))| >= p.startSize.value
    requires SummaryLead !in Names(options)
    ensures var completion := Fetched(p, files, ms, Some(LegacyOption.Stop)).value;
      var after := Summarizing(p, ms + [Message(completion, "assistant")]).messages;
      ReadChoice(options, LastContent(after)) == Failure(InvalidChoice(SummaryLead))
      && ReadChoice(options, completion) == Success(Prompting.Choice(options[i].name, Strip(data)))
  {
    var completion := Fetched(p, files, ms, Some(LegacyOption.Stop)).value;
    AsWrittenReturnsSummary(p, files, ms, Some(LegacyOption.Stop));
    SummarySplitsAtLead(p.llm(SummaryRequest(ms + [Message(completion, "assistant")]), None));
    LeadIsStripped();
    ChoiceRoundTrip(options, i, data);
  }

  /** A summary message splits at its first `:` right after the lead sentence. */
  lemma SummarySplitsAtLead(summary: string)
    ensures SplitOnce(SummaryMessage(summary).content, LegacyOption.Separator)
         == Some((SummaryLead, "\n```\n" + summary + "\n```"))
  {
    var rest := "\n```\n" + summary + "\n```";
    var content := SummaryLead + LegacyOption.Separator + rest;
    assert SummaryMessage(summary).content == content by {
      assert ":\n```\n" == LegacyOption.Separator + "\n```\n";
    }
    LeadHasNoSeparator();
    SplitOnceAtChar(SummaryLead, ':', rest);
  }

  /** The lead sentence holds no separator. */
  lemma LeadHasNoSeparator()
    ensures ':' !in SummaryLead
  {
  }

  /** The lead sentence has no surrounding whitespace. */
  lemma LeadIsStripped()
    ensures Strip(SummaryLead) == SummaryLead
  {
    assert SummaryLead[0] == 'H' && SummaryLead[|SummaryLead| - 1] == 't';
    StripUnpadded(SummaryLead);
  }

  // ---------------------------------------------------------------------------
  // The cache
  // ---------------------------------------------------------------------------

  /** With a cache directory, only the empty history can be completed, and
      asking again replays the first answer whatever the stop string. */
  lemma CacheReplays(p: Setup, files: map<string, string>, stop: Option<string>, again: Option<string>)
    requires p.cachePath.Some?
    ensures var stored := FilesAfter(p, files, [], stop);
      Fetched(p, stored, [], again) == Fetched(p, files, [], stop)
      && FilesAfter(p, stored, [], again) == stored
      && CacheFile(p.cachePath.value, p.hash) in stored
  {
  }

  // ---------------------------------------------------------------------------
  // Choices
  // ---------------------------------------------------------------------------

  /** The request of `get_choice` shows every option's description, and
      with it the instruction to write `(done)`, the stop string it then
      passes. */
  lemma ChoiceRequestShowsOptions(options: seq<LegacyOption.PromptOption>, i: nat)
    requires i < |options|
    ensures Contains(ChoiceRequest(options), LegacyOption.Description(options[i]))
    ensures Contains(ChoiceRequest(options), "Write \"" + LegacyOption.Stop + "\"")
  {
    var parts := seq(|options|, k requires 0 <= k < |options| => LegacyOption.Description(options[k]));
    var joined := Join(parts, "\n\n");
    var head := "Choose one of the following options:\n\n";
    JoinContainsPart(parts, "\n\n", i);
    ContainsMiddle(head, joined, "");
    assert head + joined + "" == ChoiceRequest(options);
    ContainsTrans(ChoiceRequest(options), joined, parts[i]);
    LegacyOption.DescriptionAsksForStop(options[i]);
    ContainsTrans(ChoiceRequest(options), parts[i], "Write \"" + LegacyOption.Stop + "\"");
  }

  /** An answer in the format the descriptions ask for, an option's name
      followed by the separator, is read back as that option with the
      stripped rest as its data. */
  lemma ChoiceRoundTrip(options: seq<LegacyOption.PromptOption>, i: nat, data: string)
    requires i < |options|
    requires ':' !in options[i].name
    requires Strip(options[i].name) == options[i].name
    ensures ReadChoice(options, options[i].name + LegacyOption.Separator + data)
         == Success(Prompting.Choice(options[i].name, Strip(data)))
  {
    var name := options[i].name;
    SplitOnceAtChar(name, ':', data);
  }

  /** A chosen name never contains the separator: it is the stripped text
      before the first one. */
  lemma ChosenNameHasNoSeparator(options: seq<LegacyOption.PromptOption>, completion: string)
    requires ReadChoice(options, completion).Success?
    ensures ':' !in ReadChoice(options, completion).value.name
  {
    var split := SplitOnce(completion, LegacyOption.Separator);
    HeadHasNoSeparator(completion, split.value.0, split.value.1);
    StripKeepsOut(split.value.0, ':');
  }

  /** The text before the first separator does not contain it. */
  lemma HeadHasNoSeparator(s: string, head: string, rest: string)
    requires s == head + ":" + rest
    requires forall j: nat :: j < |head| ==> !OccursAt(s, ":", j)
    ensures ':' !in head
  {
    forall j | 0 <= j < |head|
      ensures head[j] != ':'
    {
      assert !OccursAt(s, ":", j);
      assert s[j..j + 1] == [head[j]];
    }
  }

  /** Stripping adds no character. */
  lemma StripKeepsOut(s: string, c: char)
    requires c !in s
    ensures c !in Strip(s)
  {
    var u := StripStart(s);
    forall j | 0 <= j < |u|
      ensures u[j] != c
    {
      assert u[j] == s[|s| - |u| + j];
    }
    var v := StripEnd(u);
    forall j | 0 <= j < |v|
      ensures v[j] != c
    {
      assert v[j] == u[j];
    }
  }
}
