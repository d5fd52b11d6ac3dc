/** The older conversation controller `Prompter` of
    `easy_prompt/prompter.py`. Unlike the newer one it shares its message
    list with its copies, runs `summarize` after every `add_message`, does
    not append the stop string to completions, and parses choices as
    `name: data`. Its cache branch joins `Message` objects with `str.join`,
    which raises `TypeError` unless the history is empty. */
module LegacyPrompting {
  import opened Wrappers
  import opened Text
  import opened Messages
  import Summaries
  import LegacyOption
  import Prompting

  /** A Python list of messages, which several prompters may share. */
  class MessageList {
    var items: seq<Message>

    constructor(items: seq<Message>)
      ensures this.items == items
    {
      this.items := items;
    }
  }

  /** The exceptions the older prompter raises. */
  datatype PromptError =
    | InvalidRole                       // the role assertion of `Message`
    | InvalidSummary                    // the assertion of `set_summary`
    | SummaryFailed                     // `SummaryError`
    | NotJoinable                       // `TypeError` from joining `Message` objects
    | NoSeparator(completion: string)   // `PromptError`: no `:` in the answer
    | InvalidChoice(name: string)       // `PromptError`: not an option name

  /** Every setting of a prompter except its history. */
  datatype Setup = Setup(
    llm: Prompting.Llm,
    hash: string -> string,
    cachePath: Option<string>,
    logger: Option<string>,
    startSize: Option<int>,
    includeSize: Option<int>)

  /** A new history and how the operation ended. */
  datatype Step = Step(messages: seq<Message>, outcome: Outcome<PromptError>)

  // ---------------------------------------------------------------------------
  // Summaries
  // ---------------------------------------------------------------------------

  const SummaryInstruction: string :=
    "Please summarize the following conversation."
    + "\nOnly keep the most important information about the conversation in the summary."
    + "\nOnly answer with the summary and nothing else."
    + "\nHere is the conversation:\n\n"

  /** The history of the nested prompter that writes a summary. */
  function SummaryRequest(ms: seq<Message>): seq<Message> {
    [Message(SummaryInstruction + Summaries.Conversation(ms), "developer")]
  }

  /** The sentence that opens a summary message, before its `:`. */
  const SummaryLead: string := "Here is a summary" + " of the conversation" + " until this point"

  /** The developer message that replaces the summarised messages. */
  function SummaryMessage(summary: string): Message {
    Message(SummaryLead + ":\n```\n" + summary + "\n```", "developer")
  }

  /** `summarize()`: nothing below `start_size`; otherwise the summary and
      the kept messages, and `SummaryError` if that is still too long. With
      a cache directory the nested prompter's completion raises
      `TypeError`, because its history is not empty. */
  function Summarizing(p: Setup, ms: seq<Message>): (r: Step)
    requires Prompting.SummaryOk(p.startSize, p.includeSize)
    ensures r.outcome.Pass? && p.startSize.Some? ==> Length(r.messages) < p.startSize.value
    ensures r.outcome.Fail? ==> r.outcome.error == NotJoinable || r.outcome.error == SummaryFailed
    ensures r.outcome == Fail(NotJoinable) ==> r.messages == ms
  {
    if p.startSize.None? || Length(ms) < p.startSize.value then Step(ms, Pass)
    else if p.cachePath.Some? then Step(ms, Fail(NotJoinable))
    else
      var kept := [SummaryMessage(p.llm(SummaryRequest(ms), None))] + Summaries.Excluded(ms, p.includeSize.value);
      Step(kept, if Length(kept) >= p.startSize.value then Fail(SummaryFailed) else Pass)
  }

  /** Whether `summarize()` puts a new list in place of the history `ms`:
      it reaches `start_size` and, without a cache directory, the nested
      prompter answers. Otherwise the list object stays the same. */
  predicate Replaces(p: Setup, ms: seq<Message>) {
    p.startSize.Some? && Length(ms) >= p.startSize.value && p.cachePath.None?
  }

  // ---------------------------------------------------------------------------
  // Completions
  // ---------------------------------------------------------------------------

  /** The cache file of the empty history: `cache_path / hash_str("")`. */
  function CacheFile(dir: string, hash: string -> string): string {
    dir + "/" + hash("")
  }

  /** What `add_completion` obtains for the history `ms`: the model's
      answer without a cache directory; with one, `TypeError` for a
      non-empty history, else the cached text or the model's answer. */
  function Fetched(p: Setup, files: map<string, string>, ms: seq<Message>, stop: Option<string>): (r: Result<string, PromptError>)
    ensures r.Failure? <==> p.cachePath.Some? && ms != []
    ensures r.Failure? ==> r.error == NotJoinable
  {
    if p.cachePath.None? then Success(p.llm(ms, stop))
    else if ms != [] then Failure(NotJoinable)
    else
      var file := CacheFile(p.cachePath.value, p.hash);
      Success(if file in files then files[file] else p.llm(ms, stop))
  }

  /** The files after that lookup: a cache miss stores the model's answer. */
  function FilesAfter(p: Setup, files: map<string, string>, ms: seq<Message>, stop: Option<string>): map<string, string> {
    if p.cachePath.None? || ms != [] then files
    else
      var file := CacheFile(p.cachePath.value, p.hash);
      if file in files then files else files[file := p.llm(ms, stop)]
  }

  // ---------------------------------------------------------------------------
  // Choices
  // ---------------------------------------------------------------------------

  /** The message `get_choice` sends: every option's description, separated
      by blank lines, after a fixed request. */
  function ChoiceRequest(options: seq<LegacyOption.PromptOption>): string {
    "Choose one of the following options:\n\n"
    + Join(seq(|options|, i requires 0 <= i < |options| => LegacyOption.Description(options[i])), "\n\n")
  }

  /** The names of the options. */
  function Names(options: seq<LegacyOption.PromptOption>): (r: set<string>)
    ensures forall i :: 0 <= i < |options| ==> options[i].name in r
    ensures forall n :: n in r ==> exists i :: 0 <= i < |options| && options[i].name == n
  {
    set i | 0 <= i < |options| :: options[i].name
  }

  /** How `get_choice` reads the answer: split at the first separator, strip
      both sides, and accept only the name of an option. */
  function ReadChoice(options: seq<LegacyOption.PromptOption>, completion: string): (r: Result<Prompting.Choice, PromptError>)
    ensures r == Failure(NoSeparator(completion)) <==> !Contains(completion, LegacyOption.Separator)
    ensures r.Success? ==> r.value.name in Names(options) && r.value.data == Strip(r.value.data)
    ensures r.Success? ==>
      Contains(completion, LegacyOption.Separator)
      && r.value.name == Strip(SplitOnce(completion, LegacyOption.Separator).value.0)
  {
    match SplitOnce(completion, LegacyOption.Separator)
    case None => Failure(NoSeparator(completion))
    case Some(parts) =>
      var name := Strip(parts.0);
      if name !in Names(options) then Failure(InvalidChoice(name))
      else StripIdempotent(parts.1); Success(Prompting.Choice(name, Strip(parts.1)))
  }

  // ---------------------------------------------------------------------------
  // The prompter
  // ---------------------------------------------------------------------------

  class Prompter {
    var llm: Prompting.Llm
    var messages: MessageList
    var cachePath: Option<string>
    var logger: Option<string>
    var startSize: Option<int>
    var includeSize: Option<int>
    const host: Prompting.Host

    /** Every setting except the history. */
    function Settings(): Setup
      reads this
    {
      Setup(llm, host.hash, cachePath, logger, startSize, includeSize)
    }

    /** The summary settings satisfy `set_summary`'s assertion. */
    predicate Valid()
      reads this
    {
      Prompting.SummaryOk(startSize, includeSize)
    }

    /** Whether `summarize` may run a nested prompter; bounds the recursion
        between `add_message` and `summarize`. */
    function Rank(): nat
      reads this
    {
      if startSize.Some? then 1 else 0
    }

    /** `Prompter(llm)`: a new empty list and every optional setting unset. */
    constructor(llm: Prompting.Llm, host: Prompting.Host)
      ensures Settings() == Setup(llm, host.hash, None, None, None, None)
      ensures this.host == host && fresh(messages) && messages.items == [] && Valid()
    {
      this.llm := llm;
      this.host := host;
      messages := new MessageList([]);
      cachePath := None;
      logger := None;
      startSize := None;
      includeSize := None;
    }

    /** `set_messages()`: a new empty list. */
    method ClearMessages()
      modifies this
      ensures fresh(messages) && messages.items == [] && Settings() == old(Settings())
    {
      messages := new MessageList([]);
    }

    /** `set_messages(messages)`: the given list itself, not a copy. */
    method SetMessages(list: MessageList)
      modifies this
      ensures messages == list && Settings() == old(Settings())
    {
      messages := list;
    }

    /** `set_summary(start_size, include_size)`: the sizes are stored
        first; the assertion then fails unless they are consistent. */
    method SetSummary(start: Option<int>, inc: Option<int>) returns (r: Outcome<PromptError>)
      modifies this
      ensures Settings() == old(Settings()).(startSize := start, includeSize := inc)
      ensures messages == old(messages)
      ensures r.Pass? <==> Prompting.SummaryOk(start, inc)
      ensures r.Fail? ==> r.error == InvalidSummary
    {
      startSize := start;
      includeSize := inc;
      if !Prompting.SummaryOk(start, inc) {
        return Fail(InvalidSummary);
      }
      return Pass;
    }

    /** `get_copy()`: a new prompter that shares this prompter's message
        list and has all of its settings. */
    method GetCopy() returns (c: Prompter)
      requires Valid()
      ensures fresh(c) && c.host == host && c.Valid()
      ensures c.Settings() == Settings() && c.messages == messages
    {
      c := new Prompter(llm, host);
      c.messages := messages;
      c.cachePath := cachePath;
      c.logger := logger;
      c.startSize := startSize;
      c.includeSize := includeSize;
    }

    /** `add_message(content, role)`: append to the list in place, then
        `summarize()`. A summary puts a new list in place of the old one,
        which keeps the appended message. Printing is not part of the
        model; the text printed is `LegacyMessage.Str`. */
    method AddMessage(content: string, role: string) returns (r: Outcome<PromptError>)
      requires Valid()
      modifies this, messages, host
      decreases Rank(), 3
      ensures Settings() == old(Settings()) && Valid() && host.files == old(host.files)
      ensures !IsRole(role) ==> r == Fail(InvalidRole) && messages == old(messages) && messages.items == old(messages.items)
      ensures IsRole(role) ==> old(messages).items == old(messages.items) + [Message(content, role)]
      ensures IsRole(role) ==>
        Step(messages.items, r) == Summarizing(old(Settings()), old(messages.items) + [Message(content, role)])
      ensures IsRole(role) ==>
        if Replaces(old(Settings()), old(messages.items) + [Message(content, role)]) then fresh(messages)
        else messages == old(messages)
      ensures messages == old(messages) || fresh(messages)
    {
      if !IsRole(role) {
        return Fail(InvalidRole);
      }
      messages.items := messages.items + [Message(content, role)];
      r := Summarize();
    }

    /** `summarize()`. */
    method Summarize() returns (r: Outcome<PromptError>)
      requires Valid()
      modifies this, host
      decreases Rank(), 2
      ensures Settings() == old(Settings()) && Valid() && host.files == old(host.files)
      ensures Step(messages.items, r) == Summarizing(old(Settings()), old(messages.items))
      ensures if Replaces(old(Settings()), old(messages.items)) then fresh(messages) else messages == old(messages)
      ensures messages == old(messages) || fresh(messages)
    {
      if startSize.None? || Length(messages.items) < startSize.value {
        return Pass;
      }
      var excluded := CollectExcluded(includeSize.value);
      var summary;
      summary, r := WriteSummary();
      if r.Fail? {
        return;
      }
      var list := new MessageList([SummaryMessage(summary)] + excluded);
      SetMessages(list);
      if Length(messages.items) >= startSize.value {
        return Fail(SummaryFailed);
      }
    }

    /** The loop of `summarize()` that adds up content lengths and collects
        the messages after the first one where the total reaches
        `include_size`. */
    method CollectExcluded(inc: int) returns (excluded: seq<Message>)
      ensures excluded == Summaries.Excluded(messages.items, inc)
    {
      var ms := messages.items;
      var akk := 0;
      excluded := [];
      var i := 0;
      while i < |ms|
        invariant i <= |ms|
        invariant akk == Length(ms[..i])
        invariant Summaries.Excluded(ms, inc) == Summaries.ExcludedFrom(ms, inc, i)
      {
        assert ms[..i + 1][..i] == ms[..i];
        akk := akk + |ms[i].content|;
        if akk >= inc {
          for j := i + 1 to |ms|
            invariant excluded == ms[i + 1..j]
          {
            excluded := excluded + [ms[j]];
          }
          return;
        }
        i := i + 1;
      }
    }

    /** The nested prompter of `summarize()`: a copy given a new empty list
        and no summary sizes is asked for a summary of the conversation. */
    method WriteSummary() returns (summary: string, r: Outcome<PromptError>)
      requires Valid()
      modifies host
      decreases 0, 6
      ensures host.files == old(host.files)
      ensures r == (if cachePath.Some? then Fail(NotJoinable) else Pass)
      ensures r.Pass? ==> summary == llm(SummaryRequest(messages.items), None)
    {
      var conversation := Summaries.Conversation(messages.items);
      ghost var request := SummaryRequest(messages.items);
      var nested := GetCopy();
      nested.ClearMessages();
      var _ := nested.SetSummary(None, None);
      var _ := nested.AddMessage(SummaryInstruction + conversation, "developer");
      assert nested.messages.items == request;
      summary, r := nested.GetCompletion(None);
    }

    /** `add_completion(stop)`: the model's answer, or with a cache
        directory the cached text for the empty history, is added as an
        assistant message; the stop string is not appended. */
    method AddCompletion(stop: Option<string>) returns (r: Outcome<PromptError>)
      requires Valid()
      modifies this, messages, host
      decreases Rank(), 4
      ensures Settings() == old(Settings()) && Valid()
      ensures host.files == FilesAfter(old(Settings()), old(host.files), old(messages.items), stop)
      ensures Fetched(old(Settings()), old(host.files), old(messages.items), stop).Failure? ==>
        r == Fail(NotJoinable) && messages == old(messages) && messages.items == old(messages.items)
      ensures Fetched(old(Settings()), old(host.files), old(messages.items), stop).Success? ==>
        var completion := Fetched(old(Settings()), old(host.files), old(messages.items), stop).value;
        old(messages).items == old(messages.items) + [Message(completion, "assistant")]
        && Step(messages.items, r) == Summarizing(old(Settings()), old(messages.items) + [Message(completion, "assistant")])
        && if Replaces(old(Settings()), old(messages.items) + [Message(completion, "assistant")]) then fresh(messages)
           else messages == old(messages)
      ensures messages == old(messages) || fresh(messages)
    {
      var completion;
      if cachePath.None? {
        completion := llm(messages.items, stop);
      } else {
        if messages.items != [] {
          return Fail(NotJoinable);
        }
        var filePath := CacheFile(cachePath.value, host.hash);
        if filePath in host.files {
          completion := host.files[filePath];
        } else {
          completion := llm(messages.items, stop);
          host.files := host.files[filePath := completion];
        }
      }
      r := AddMessage(completion, "assistant");
    }

    /** `get_completion(stop)` as written: `add_completion`, then the content
        of the last message of the history, which a summary may have
        replaced (see `GetCompletion`). */
    method GetCompletionAsWritten(stop: Option<string>) returns (text: string, r: Outcome<PromptError>)
      requires Valid()
      modifies this, messages, host
      decreases Rank(), 5
      ensures Settings() == old(Settings()) && Valid()
      ensures host.files == FilesAfter(old(Settings()), old(host.files), old(messages.items), stop)
      ensures Fetched(old(Settings()), old(host.files), old(messages.items), stop).Failure? ==>
        r == Fail(NotJoinable) && messages == old(messages) && messages.items == old(messages.items)
      ensures Fetched(old(Settings()), old(host.files), old(messages.items), stop).Success? ==>
        var completion := Fetched(old(Settings()), old(host.files), old(messages.items), stop).value;
        var ms := old(messages.items) + [Message(completion, "assistant")];
        old(messages).items == ms
        && Step(messages.items, r) == Summarizing(old(Settings()), ms)
        && (if Replaces(old(Settings()), ms) then fresh(messages) else messages == old(messages))
        && (r.Pass? ==> |messages.items| >= 1 && text == LastContent(messages.items))
      ensures messages == old(messages) || fresh(messages)
    {
      text := "";
      r := AddCompletion(stop);
      if r.Pass? {
        text := messages.items[|messages.items| - 1].content;
      }
    }

    /** `get_completion(stop)`, with the answer taken from `add_completion`
        rather than from the last message of the history. */
    method GetCompletion(stop: Option<string>) returns (text: string, r: Outcome<PromptError>)
      requires Valid()
      modifies this, messages, host
      decreases Rank(), 5
      ensures Settings() == old(Settings()) && Valid()
      ensures host.files == FilesAfter(old(Settings()), old(host.files), old(messages.items), stop)
      ensures Fetched(old(Settings()), old(host.files), old(messages.items), stop).Failure? ==>
        r == Fail(NotJoinable) && messages == old(messages) && messages.items == old(messages.items)
      ensures Fetched(old(Settings()), old(host.files), old(messages.items), stop).Success? ==>
        var completion := Fetched(old(Settings()), old(host.files), old(messages.items), stop).value;
        var ms := old(messages.items) + [Message(completion, "assistant")];
        old(messages).items == ms
        && Step(messages.items, r) == Summarizing(old(Settings()), ms)
        && (if Replaces(old(Settings()), ms) then fresh(messages) else messages == old(messages))
        && (r.Pass? ==> text == completion)
      ensures messages == old(messages) || fresh(messages)
    {
      var fetched := Fetched(Settings(), host.files, messages.items, stop);
      text := "";
      r := AddCompletion(stop);
      if r.Pass? {
        text := fetched.value;
      }
    }

    /** `get_choice(options)`: describe the options in a developer message,
        ask for a completion that ends at `Option.stop`, and read the answer
        as `name: data`. As written, the answer read is the last message of
        the history (see `GetCompletionAsWritten`). The request is appended
        to the list in place; the answer goes to the list that holds the
        history after the request, which is a new one when a summary
        replaced it. */
    method GetChoice(options: seq<LegacyOption.PromptOption>) returns (r: Result<Prompting.Choice, PromptError>)
      requires Valid()
      modifies this, messages, host
      decreases Rank(), 6
      ensures Settings() == old(Settings()) && Valid()
      ensures messages == old(messages) || fresh(messages)
      ensures var p, request := old(Settings()), Message(ChoiceRequest(options), "developer");
        var asked := Summarizing(p, old(messages.items) + [request]);
        var fetched := Fetched(p, old(host.files), asked.messages, Some(LegacyOption.Stop));
        if asked.outcome.Fail? || fetched.Failure? then
          r == Failure(if asked.outcome.Fail? then asked.outcome.error else NotJoinable)
          && messages.items == asked.messages && host.files == old(host.files)
          && old(messages).items == old(messages.items) + [request]
        else
          var answer := Message(fetched.value, "assistant");
          var answered := Summarizing(p, asked.messages + [answer]);
          messages.items == answered.messages
          && host.files == FilesAfter(p, old(host.files), asked.messages, Some(LegacyOption.Stop))
          && old(messages).items
             == old(messages.items) + [request] + (if Replaces(p, old(messages.items) + [request]) then [] else [answer])
          && r == if answered.outcome.Fail? then Failure(answered.outcome.error)
                  else ReadChoice(options, LastContent(answered.messages))
    {
      var added := AddMessage(ChoiceRequest(options), "developer");
      if added.Fail? {
        return Failure(added.error);
      }
      var completion, got := GetCompletionAsWritten(Some(LegacyOption.Stop));
      if got.Fail? {
        return Failure(got.error);
      }
      r := ReadAnswer(options, completion);
    }

    /** `get_choice(options)` with the answer taken from the completion that
        was added (see `GetCompletion`). */
    method GetChoiceCorrected(options: seq<LegacyOption.PromptOption>) returns (r: Result<Prompting.Choice, PromptError>)
      requires Valid()
      modifies this, messages, host
      decreases Rank(), 6
      ensures Settings() == old(Settings()) && Valid()
      ensures messages == old(messages) || fresh(messages)
      ensures var p, request := old(Settings()), Message(ChoiceRequest(options), "developer");
        var asked := Summarizing(p, old(messages.items) + [request]);
        var fetched := Fetched(p, old(host.files), asked.messages, Some(LegacyOption.Stop));
        if asked.outcome.Fail? || fetched.Failure? then
          r == Failure(if asked.outcome.Fail? then asked.outcome.error else NotJoinable)
          && messages.items == asked.messages && host.files == old(host.files)
          && old(messages).items == old(messages.items) + [request]
        else
          var answer := Message(fetched.value, "assistant");
          var answered := Summarizing(p, asked.messages + [answer]);
          messages.items == answered.messages
          && host.files == FilesAfter(p, old(host.files), asked.messages, Some(LegacyOption.Stop))
          && old(messages).items
             == old(messages.items) + [request] + (if Replaces(p, old(messages.items) + [request]) then [] else [answer])
          && r == if answered.outcome.Fail? then Failure(answered.outcome.error)
                  else ReadChoice(options, fetched.value)
    {
      var added := AddMessage(ChoiceRequest(options), "developer");
      if added.Fail? {
        return Failure(added.error);
      }
      var completion, got := GetCompletion(Some(LegacyOption.Stop));
      if got.Fail? {
        return Failure(got.error);
      }
      r := ReadAnswer(options, completion);
    }

    /** The reading step of `get_choice`: the separator must occur, and the
        stripped text before it must be an option's name. */
    method ReadAnswer(options: seq<LegacyOption.PromptOption>, completion: string) returns (r: Result<Prompting.Choice, PromptError>)
      ensures r == ReadChoice(options, completion)
    {
      if !Contains(completion, LegacyOption.Separator) {
        return Failure(NoSeparator(completion));
      }
      var parts := SplitOnce(completion, LegacyOption.Separator).value;
      var name, data := Strip(parts.0), Strip(parts.1);
      if name !in Names(options) {
        return Failure(InvalidChoice(name));
      }
      return Success(Prompting.Choice(name, data));
    }
  }
}
