/** The conversation controller `Prompter` of `easy_prompting/_prompter.py`:
    a message history that grows by `add_message` and `add_completion`,
    is summarised once its total length reaches `start_size`, and whose
    completions can be cached in text files named by a hash of the history.
    The language model, the file system and the hash function are
    parameters of the model. */
module Prompting {
  import opened Wrappers
  import opened Text
  import CoreUtils
  import opened Messages
  import CacheKeys
  import Summaries

  /** The language model: `llm.get_completion(messages, stop)`. */
  type Llm = (seq<Message>, Option<string>) -> string

  /** The machine the prompter runs on: the text files of its file system,
      by path, and the function `hash_str`. */
  class Host {
    var files: map<string, string>
    const hash: string -> string

    constructor(files: map<string, string>, hash: string -> string)
      ensures this.files == files && this.hash == hash
    {
      this.files := files;
      this.hash := hash;
    }
  }

  /** The exceptions the prompter raises. */
  datatype PromptError =
    | InvalidRole         // the role assertion of `Message`
    | InvalidSummary      // the assertion of `set_summary`
    | SummaryFailed       // `SummaryError`
    | EmptyStop           // `str.split` with an empty separator
    | ChoiceFailed(completion: string)  // `ChoiceError`

  /** Every setting of a prompter except its history: the model, the hash
      of its host, the tag, the cache directory, the logger, the
      interaction role and the two summary sizes. */
  datatype Setup = Setup(
    llm: Llm,
    hash: string -> string,
    tag: Option<string>,
    cachePath: Option<string>,
    logger: Option<string>,
    interaction: Option<string>,
    startSize: Option<int>,
    includeSize: Option<int>)

  /** The assertion of `set_summary`: a start size needs an include size
      that is positive and at most the start size. */
  predicate SummaryOk(startSize: Option<int>, includeSize: Option<int>) {
    startSize.None? || (includeSize.Some? && 0 < includeSize.value <= startSize.value)
  }

  /** What the prompter's methods change: its history and the files of its host. */
  datatype State = State(messages: seq<Message>, files: map<string, string>)

  // ---------------------------------------------------------------------------
  // The completion cache
  // ---------------------------------------------------------------------------

  /** `cache_path / hash_str(key)`: the file that caches the completion of
      a history. */
  function CacheFile(dir: string, hash: string -> string, ms: seq<Message>): string {
    dir + "/" + hash(CacheKeys.CacheKey(ms))
  }

  /** The completion `add_completion` obtains for the history `ms`, before
      the stop string is appended: without a cache directory the model's
      answer; with one, the cached file if it exists, else the model's
      answer. */
  function Fetched(p: Setup, files: map<string, string>, ms: seq<Message>, stop: Option<string>): string {
    if p.cachePath.None? then p.llm(ms, stop)
    else
      var file := CacheFile(p.cachePath.value, p.hash, ms);
      if file in files then files[file] else p.llm(ms, stop)
  }

  /** The files after that lookup: a cache miss stores the model's answer. */
  function FilesAfter(p: Setup, files: map<string, string>, ms: seq<Message>, stop: Option<string>): map<string, string> {
    if p.cachePath.None? then files
    else
      var file := CacheFile(p.cachePath.value, p.hash, ms);
      if file in files then files else files[file := p.llm(ms, stop)]
  }

  /** The stop string `add_completion` appends to a completion. */
  function StopText(stop: Option<string>): string {
    if stop.Some? then stop.value else ""
  }

  // ---------------------------------------------------------------------------
  // Summaries
  // ---------------------------------------------------------------------------

  const SummaryInstruction: string :=
    "Please summarize the following conversation."
    + "\nOnly keep the most important information about the conversation in the summary."
    + "\nOnly answer with the summary and nothing else."

  /** The history of the nested prompter that writes a summary. */
  function SummaryRequest(ms: seq<Message>): seq<Message> {
    [Message(SummaryInstruction, "user"),
     Message("Here is the conversation:\n" + Summaries.Conversation(ms), "developer")]
  }

  /** The developer message that replaces the summarised messages. */
  function SummaryMessage(summary: string): Message {
    Message("Here is a summary of the conversation until this point:\n```summary\n" + summary + "\n```", "developer")
  }

  /** `summarize()`: the nested prompter's completion for the summary
      request, as one developer message, followed by the kept messages. */
  function Summarized(p: Setup, s: State): State
    requires p.includeSize.Some?
  {
    var request := SummaryRequest(s.messages);
    State([SummaryMessage(Fetched(p, s.files, request, None))] + Summaries.Excluded(s.messages, p.includeSize.value),
          FilesAfter(p, s.files, request, None))
  }

  /** `add_message` with a valid role: append the message, then summarise
      if the history reached `start_size`. */
  function Added(p: Setup, s: State, m: Message): State
    requires SummaryOk(p.startSize, p.includeSize)
  {
    var appended := State(s.messages + [m], s.files);
    if p.startSize.Some? && Length(appended.messages) >= p.startSize.value then Summarized(p, appended)
    else appended
  }

  /** `add_message` raises `SummaryError`: the history is still at least
      `start_size` long afterwards. */
  predicate AddFails(p: Setup, s: State, m: Message)
    requires SummaryOk(p.startSize, p.includeSize)
  {
    p.startSize.Some? && Length(Added(p, s, m).messages) >= p.startSize.value
  }

  /** The completion `add_completion` appends as an assistant message. */
  function Completion(p: Setup, s: State, stop: Option<string>): string {
    Fetched(p, s.files, s.messages, stop) + StopText(stop)
  }

  /** The state after `add_completion`. */
  function Completed(p: Setup, s: State, stop: Option<string>): State
    requires SummaryOk(p.startSize, p.includeSize)
  {
    Added(p, State(s.messages, FilesAfter(p, s.files, s.messages, stop)), Message(Completion(p, s, stop), "assistant"))
  }

  /** `add_completion` raises `SummaryError`. */
  predicate CompletionFails(p: Setup, s: State, stop: Option<string>)
    requires SummaryOk(p.startSize, p.includeSize)
  {
    AddFails(p, State(s.messages, FilesAfter(p, s.files, s.messages, stop)), Message(Completion(p, s, stop), "assistant"))
  }

  /** `completion.split(stop, 1)[0]` when a stop is given. */
  function CutStop(completion: string, stop: Option<string>): string
    requires stop.Some? ==> stop.value != ""
  {
    if stop.Some? then CutAt(completion, stop.value) else completion
  }

  /** The text `add_message` prints to the logger for the message at
      position `index`: upper-cased role, the tag if any, the position,
      then the content padded by `" | "`. */
  function LogText(m: Message, tag: Option<string>, index: int): string {
    Upper(m.role) + " " + CoreUtils.IfText(tag.Some?, "(" + (if tag.Some? then tag.value else "") + ") ")
    + "(" + IntToString(index) + "):\n" + CoreUtils.PadText(m.content, " | ")
  }

  // ---------------------------------------------------------------------------
  // Choices
  // ---------------------------------------------------------------------------

  /** The name of the chosen option and the text after its key. */
  datatype Choice = Choice(name: string, data: string)

  /** A key function usable with `str.split`: it never yields the empty string. */
  ghost predicate KeyFunction(createKey: string -> string) {
    forall name :: createKey(name) != ""
  }

  /** The search loop of `get_choice` from option `j` on: the index of the
      first option whose key occurs in the completion, or the number of
      options when none does. */
  function FirstKey(names: seq<string>, createKey: string -> string, completion: string, j: nat): (i: nat)
    requires j <= |names|
    ensures j <= i <= |names|
    ensures i < |names| ==> Contains(completion, createKey(names[i]))
    ensures forall k :: j <= k < i ==> !Contains(completion, createKey(names[k]))
    decreases |names| - j
  {
    if j == |names| then |names|
    else if Contains(completion, createKey(names[j])) then j
    else FirstKey(names, createKey, completion, j + 1)
  }

  /** The outcome of `get_choice` for a completion: the first declared
      option whose key occurs, with the stripped text after the key's first
      occurrence, or `ChoiceError`. */
  function Chosen(names: seq<string>, createKey: string -> string, completion: string): Result<Choice, PromptError>
    requires KeyFunction(createKey)
  {
    var i := FirstKey(names, createKey, completion, 0);
    if i == |names| then Failure(ChoiceFailed(completion))
    else Success(Choice(names[i], Strip(SplitOnce(completion, createKey(names[i])).value.1)))
  }

  // ---------------------------------------------------------------------------
  // The prompter
  // ---------------------------------------------------------------------------

  class Prompter {
    var llm: Llm
    var tag: Option<string>
    var messages: seq<Message>
    var cachePath: Option<string>
    var logger: Option<string>
    var interaction: Option<string>
    var startSize: Option<int>
    var includeSize: Option<int>
    const host: Host

    /** Every setting except the history. */
    function Settings(): Setup
      reads this
    {
      Setup(llm, host.hash, tag, cachePath, logger, interaction, startSize, includeSize)
    }

    /** The history and the files of the host. */
    function Now(): State
      reads this, host
    {
      State(messages, host.files)
    }

    /** The summary settings satisfy `set_summary`'s assertion. */
    predicate Valid()
      reads this
    {
      SummaryOk(startSize, includeSize)
    }

    /** Whether `add_message` may summarise; used to bound the recursion
        between `add_message` and `summarize`. */
    function Rank(): nat
      reads this
    {
      if startSize.Some? then 1 else 0
    }

    /** `Prompter(llm)`: an empty history and every optional setting unset. */
    constructor(llm: Llm, host: Host)
      ensures Settings() == Setup(llm, host.hash, None, None, None, None, None, None)
      ensures this.host == host && messages == [] && Valid()
    {
      this.llm := llm;
      this.host := host;
      tag := None;
      messages := [];
      cachePath := None;
      logger := None;
      interaction := None;
      startSize := None;
      includeSize := None;
    }

    /** `set_messages(messages)`. */
    method SetMessages(ms: seq<Message>)
      modifies this
      ensures messages == ms && Settings() == old(Settings())
    {
      messages := ms;
    }

    /** `set_summary(start_size, include_size)`: the sizes are stored
        first; the assertion then fails unless they are consistent. */
    method SetSummary(start: Option<int>, inc: Option<int>) returns (r: Outcome<PromptError>)
      modifies this
      ensures Settings() == old(Settings()).(startSize := start, includeSize := inc)
      ensures messages == old(messages)
      ensures r.Pass? <==> SummaryOk(start, inc)
      ensures r.Fail? ==> r.error == InvalidSummary
    {
      startSize := start;
      includeSize := inc;
      if !SummaryOk(start, inc) {
        return Fail(InvalidSummary);
      }
      return Pass;
    }

    /** `get_copy()`: a new prompter with a copy of the history, no tag, and
        every other setting of this one. */
    method GetCopy() returns (c: Prompter)
      requires Valid()
      ensures fresh(c) && c.host == host && c.Valid()
      ensures c.Settings() == Settings().(tag := None)
      ensures c.messages == messages
    {
      c := new Prompter(llm, host);
      c.messages := messages;
      c.cachePath := cachePath;
      c.logger := logger;
      c.interaction := interaction;
      c.startSize := startSize;
      c.includeSize := includeSize;
    }

    /** `add_message(content, role)`. Printing to the logger is not part of
        the model; `LogText` is what it prints. */
    method AddMessage(content: string, role: string) returns (r: Outcome<PromptError>)
      requires Valid()
      modifies this, host
      decreases Rank(), 2
      ensures Settings() == old(Settings()) && Valid()
      ensures !IsRole(role) ==> r == Fail(InvalidRole) && Now() == old(Now())
      ensures IsRole(role) ==> Now() == Added(old(Settings()), old(Now()), Message(content, role))
      ensures IsRole(role) ==> (r.Fail? <==> AddFails(old(Settings()), old(Now()), Message(content, role)))
      ensures IsRole(role) && r.Fail? ==> r.error == SummaryFailed
    {
      if !IsRole(role) {
        return Fail(InvalidRole);
      }
      var message := Message(content, role);
      messages := messages + [message];
      if startSize.Some? && Length(messages) >= startSize.value {
        Summarize();
        if Length(messages) >= startSize.value {
          return Fail(SummaryFailed);
        }
      }
      return Pass;
    }

    /** `add_completion(stop)`: the completion comes from the cache file of
        the history if there is one, otherwise from the model (and is then
        stored); the stop string is appended and the result added as an
        assistant message. The interaction hook is not part of the model.
        Returns the completion it added. */
    method AddCompletion(stop: Option<string>) returns (completion: string, r: Outcome<PromptError>)
      requires Valid()
      modifies this, host
      decreases Rank(), 3
      ensures Settings() == old(Settings()) && Valid()
      ensures completion == Completion(old(Settings()), old(Now()), stop)
      ensures Now() == Completed(old(Settings()), old(Now()), stop)
      ensures r.Fail? <==> CompletionFails(old(Settings()), old(Now()), stop)
      ensures r.Fail? ==> r.error == SummaryFailed
    {
      if cachePath.None? {
        completion := llm(messages, stop);
      } else {
        var filePath := CacheFile(cachePath.value, host.hash, messages);
        if filePath in host.files {
          completion := host.files[filePath];
        } else {
          completion := llm(messages, stop);
          host.files := host.files[filePath := completion];
        }
      }
      if stop.Some? {
        completion := completion + stop.value;
      }
      r := AddMessage(completion, "assistant");
    }

    /** `get_completion(stop)`, with the completion taken from
        `add_completion` rather than from the last message of the history
        (see `GetCompletionAsWritten`): the completion cut before the first
        occurrence of the stop string. */
    method GetCompletion(stop: Option<string>) returns (text: string, r: Outcome<PromptError>)
      requires Valid()
      modifies this, host
      decreases Rank(), 4
      ensures Settings() == old(Settings()) && Valid()
      ensures Now() == Completed(old(Settings()), old(Now()), stop)
      ensures r == (if CompletionFails(old(Settings()), old(Now()), stop) then Fail(SummaryFailed)
                    else if stop == Some("") then Fail(EmptyStop) else Pass)
      ensures r.Pass? ==> text == CutStop(Completion(old(Settings()), old(Now()), stop), stop)
    {
      var completion, added := AddCompletion(stop);
      if added.Fail? {
        return "", added;
      }
      if stop == Some("") {
        return "", Fail(EmptyStop);
      }
      text, r := completion, Pass;
      if stop.Some? {
        text := CutAt(text, stop.value);
      }
    }

    /** `get_completion(stop)` as written: the last message of the history,
        cut before the first occurrence of the stop string. */
    method GetCompletionAsWritten(stop: Option<string>) returns (text: string, r: Outcome<PromptError>)
      requires Valid()
      modifies this, host
      decreases Rank(), 4
      ensures Settings() == old(Settings()) && Valid()
      ensures Now() == Completed(old(Settings()), old(Now()), stop)
      ensures r == (if CompletionFails(old(Settings()), old(Now()), stop) then Fail(SummaryFailed)
                    else if stop == Some("") then Fail(EmptyStop) else Pass)
      ensures r.Pass? ==> |messages| >= 1 && text == CutStop(LastContent(messages), stop)
    {
      var _, added := AddCompletion(stop);
      if added.Fail? {
        return "", added;
      }
      text := messages[|messages| - 1].content;
      assert text == LastContent(messages);
      r := Pass;
      if stop.Some? {
        if stop.value == "" {
          return "", Fail(EmptyStop);
        }
        text := CutAt(text, stop.value);
      }
    }

    /** `get_choice(*options, role=role)`. The option menu (`introduction`,
        `describe_options`, `create_scope`) comes from `_option.py` and is
        the parameter `menu`; `create_key` is the parameter `createKey` and
        `Option.stop` the parameter `optionStop`. As written, the answer
        parsed is what `get_completion` returns: the last message of the
        history, cut at the stop key (see `GetCompletionAsWritten`). */
    method GetChoice(menu: string, names: seq<string>, createKey: string -> string, optionStop: string, role: string)
      returns (r: Result<Choice, PromptError>)
      requires Valid() && KeyFunction(createKey)
      modifies this, host
      decreases Rank(), 6
      ensures Settings() == old(Settings()) && Valid()
      ensures !IsRole(role) ==> r == Failure(InvalidRole) && Now() == old(Now())
      ensures IsRole(role) ==>
        var p, menuMessage, key := old(Settings()), Message(menu, role), Some(createKey(optionStop));
        var asked := Added(p, old(Now()), menuMessage);
        if AddFails(p, old(Now()), menuMessage) then r == Failure(SummaryFailed) && Now() == asked
        else if CompletionFails(p, asked, key) then r == Failure(SummaryFailed) && Now() == Completed(p, asked, key)
        else r == Chosen(names, createKey, CutStop(LastContent(messages), key)) && Now() == Completed(p, asked, key)
    {
      var added := AddMessage(menu, role);
      if added.Fail? {
        return Failure(added.error);
      }
      var key := Some(createKey(optionStop));
      var completion, got := GetCompletionAsWritten(key);
      if got.Fail? {
        return Failure(got.error);
      }
      r := ChooseOption(names, createKey, completion);
    }

    /** `get_choice` with the answer taken from the completion that was
        added (see `GetCompletion`). */
    method GetChoiceCorrected(menu: string, names: seq<string>, createKey: string -> string, optionStop: string, role: string)
      returns (r: Result<Choice, PromptError>)
      requires Valid() && KeyFunction(createKey)
      modifies this, host
      decreases Rank(), 6
      ensures Settings() == old(Settings()) && Valid()
      ensures !IsRole(role) ==> r == Failure(InvalidRole) && Now() == old(Now())
      ensures IsRole(role) ==>
        var p, menuMessage, key := old(Settings()), Message(menu, role), Some(createKey(optionStop));
        var asked := Added(p, old(Now()), menuMessage);
        if AddFails(p, old(Now()), menuMessage) then r == Failure(SummaryFailed) && Now() == asked
        else if CompletionFails(p, asked, key) then r == Failure(SummaryFailed) && Now() == Completed(p, asked, key)
        else r == Chosen(names, createKey, CutStop(Completion(p, asked, key), key)) && Now() == Completed(p, asked, key)
    {
      var added := AddMessage(menu, role);
      if added.Fail? {
        return Failure(added.error);
      }
      var completion, got := GetCompletion(Some(createKey(optionStop)));
      if got.Fail? {
        return Failure(got.error);
      }
      r := ChooseOption(names, createKey, completion);
    }

    /** The loop of `get_choice` over the options: the first option whose
        key occurs in the answer, with the stripped text after that key. */
    method ChooseOption(names: seq<string>, createKey: string -> string, completion: string)
      returns (r: Result<Choice, PromptError>)
      requires KeyFunction(createKey)
      ensures r == Chosen(names, createKey, completion)
    {
      for j := 0 to |names|
        invariant FirstKey(names, createKey, completion, 0) == FirstKey(names, createKey, completion, j)
      {
        var key := createKey(names[j]);
        var split := SplitOnce(completion, key);
        if split.Some? {
          return Success(Choice(names[j], Strip(split.value.1)));
        }
      }
      return Failure(ChoiceFailed(completion));
    }

    /** The first half of `summarize()`: the loop that adds up content
        lengths and, at the first message where the total reaches
        `include_size`, collects every message after it. */
    method CollectExcluded(inc: int) returns (excluded: seq<Message>)
      ensures excluded == Summaries.Excluded(messages, inc)
    {
      var akk := 0;
      excluded := [];
      var i := 0;
      while i < |messages|
        invariant i <= |messages|
        invariant akk == Length(messages[..i])
        invariant Summaries.Excluded(messages, inc) == Summaries.ExcludedFrom(messages, inc, i)
      {
        assert messages[..i + 1][..i] == messages[..i];
        akk := akk + |messages[i].content|;
        if akk >= inc {
          for j := i + 1 to |messages|
            invariant excluded == messages[i + 1..j]
          {
            excluded := excluded + [messages[j]];
          }
          return;
        }
        i := i + 1;
      }
    }

    /** The nested prompter of `summarize()`: a copy with an empty history
        and no summary sizes, so it never summarises itself, is asked for a
        summary of the conversation. */
    method WriteSummary() returns (summary: string)
      requires Valid()
      modifies host
      decreases 0, 5
      ensures summary == Fetched(Settings(), old(host.files), SummaryRequest(messages), None)
      ensures host.files == FilesAfter(Settings(), old(host.files), SummaryRequest(messages), None)
    {
      var conversation := Summaries.Conversation(messages);
      ghost var request := SummaryRequest(messages);
      var nested := GetCopy();
      nested.SetMessages([]);
      var _ := nested.SetSummary(None, None);
      ghost var quiet := nested.Settings();
      var _ := nested.AddMessage(SummaryInstruction, "user");
      var _ := nested.AddMessage("Here is the conversation:\n" + conversation, "developer");
      assert nested.Now() == State(request, old(host.files));
      var done;
      summary, done := nested.GetCompletion(None);
      assert summary == Fetched(quiet, old(host.files), request, None) + "";
    }

    /** `summarize()`: the summary, as one developer message, followed by
        the messages after the first one at which the running length
        reaches `include_size`. */
    method Summarize()
      requires Valid() && includeSize.Some?
      modifies this, host
      decreases 0, 6
      ensures Settings() == old(Settings())
      ensures Now() == Summarized(old(Settings()), old(Now()))
    {
      var excluded := CollectExcluded(includeSize.value);
      var summary := WriteSummary();
      messages := [SummaryMessage(summary)] + excluded;
    }
  }
}
