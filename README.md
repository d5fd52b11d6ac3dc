# EasyPrompting, modelled in Dafny

EasyPrompting is a Python library for holding a conversation with a
language model. It has four parts.

- **The prompter.** A `Prompter` (`easy_prompting/_prompter.py`, and the
  older `easy_prompt/prompter.py`) keeps a history of chat messages.
  - `add_message` appends to the history. `add_completion` asks the
    model for the next answer, optionally through a file cache named
    by a hash of the history.
  - When the total content length reaches `start_size`, the prompter
    replaces the older messages by a summary. It writes that summary with
    a nested prompter.
  - `get_choice` lets the model pick one of several options.
- **Instructions.** Instruction nodes (`DataI`, `TextI`, `CodeI`, `ListI`,
  `IList`, `RepetitionI`, `ChoiceI`) describe a response format. The
  format asks the model to write `[[key]]` markers. The same nodes then
  extract the values back from the model's answer.
- **Loggers.** A logger prints messages, hands them on to several other
  loggers (`LogList`), or crops long ones (`LogReadable`). `FormatLogger`
  is a text stream that hides all but the first lines of what is written
  to it.
- **Text helpers.** Padding, scopes, `[[key]]` markers, bullet and numbered
  lists, and code-fence extraction.

## How the model is organised

- **Value types** are datatypes: messages, options, instruction trees,
  extracted values and the error cases.
- **Python functions that only compute** are Dafny functions. Lemmas
  state their properties: round trips, first-match order, and what a
  description announces.
- **Loops in the source** are methods with loop invariants. Each
  method's `ensures` ties it to the function that specifies it, for
  example `enumerate_text`, `extract`, `extract_code`, the summary loop
  and the crop-table shift.
- **Objects whose fields change** are classes whose methods modify
  them: the prompters, the loggers and `FormatLogger`.
  - The newer prompter's history is a `seq` field.
  - The older prompter shares its list object between copies, so that
    list is a `MessageList` object.
- **Exceptions** are `Result`/`Outcome` values naming the exception.
  - The prompters return `Result`/`Outcome` values: `InvalidRole`,
    `InvalidSummary`, `SummaryFailed`, `ChoiceFailed`, `NoSeparator`,
    `InvalidChoice`, `NotJoinable` and `EmptyStop`.
  - The instruction nodes return `ExtractErr` values.
- **Parameters, not modelled code:**
  - the language model is a pure function of the history and the stop
    string;
  - the file system is a map from paths to texts, held by a `Host`;
  - `hash_str` is a function parameter of the `Host`.

## Model

| member | source | states |
|---|---|---|
| Text.Lines | easy_prompting/_utils.py:37 | `s.split("\n")` always has at least one piece |
| Text.JoinLinesIdentity | easy_prompting/prebuilt/_logger.py:28-35 | joining the lines of a text with newlines gives the text back, so a write within the limit is unchanged |
| Text.LinesOfJoin | easy_prompting/prebuilt/_loggers.py:136-140 | splitting newline-free parts joined by newlines gives back exactly those parts |
| Text.SplitOnce | easy_prompting/prebuilt/instructions.py:86 | `s.split(sep, 1)` has two parts exactly when `sep` occurs; then `s` is head + sep + tail, and `sep` does not start inside the head |
| Text.CutAt | easy_prompting/_prompter.py:139 | `s.split(sep, 1)[0]` is all of `s` when `sep` is absent; otherwise it is the text before the first `sep`, and `sep` does not start inside it |
| Text.SplitOnceAt | easy_prompt/prompter.py:100 | splitting at a separator that does not occur earlier gives back the two sides |
| Text.SplitOnceAtChar | easy_prompt/prompter.py:100 | splitting at a one-character separator absent from the head gives back the head and the rest |
| Text.StripIdempotent | easy_prompting/prebuilt/instructions.py:27 | stripping twice is stripping once |
| Text.IntToString | easy_prompting/prebuilt/_logger.py:33 | `str(n)` is non-empty and has no newline |
| Text.Upper | easy_prompting/_message.py:10 | `upper()` keeps the length and puts newlines exactly where the input has them |
| Text.SliceBound | easy_prompting/utils.py:60 | Python's slice bound stays within the list and is the index itself when the index is in range |
| CoreUtils.If | easy_prompting/_utils.py:31-34 | returns the then-text when the condition holds and the else-text otherwise |
| CoreUtils.IfText | easy_prompting/_utils.py:31-34 | with the default else-text, a non-empty result implies the condition held |
| CoreUtils.PadText | easy_prompting/_utils.py:36-37 | the padding is put in front of the text and after every newline |
| CoreUtils.PadTextLines | easy_prompting/_utils.py:36-37 | padding keeps the number of lines and prefixes each one with the padding |
| CoreUtils.WrapText | easy_prompting/_utils.py:39-40 | `[[text]]`: four characters longer, opened by `[[`, closed by `]]`, with the text in between |
| CoreUtils.WrapTextInjective | easy_prompting/_utils.py:39-40 | different keys give different markers |
| CoreUtils.ScopeText | easy_prompting/_utils.py:42-43 | ` {`, the text indented by two spaces on every line, then `}` |
| CoreUtils.Present | easy_prompting/_utils.py:46 | the entries that are not `None`, each one taken from the arguments |
| CoreUtils.PresentConcat | easy_prompting/_utils.py:46 | the entries that are not `None`, taken from two argument lists one after the other, are those of the first list followed by those of the second |
| CoreUtils.PresentSkipsNone | easy_prompting/_utils.py:46 | a `None` argument contributes nothing |
| CoreUtils.ListText | easy_prompting/_utils.py:45-49 | the present entries as `- ` bullets joined by newlines, put in a scope when `add_scope` is set |
| CoreUtils.ListTextSkipsNone | easy_prompting/_utils.py:45-49 | a `None` argument leaves the bullet list unchanged |
| CoreUtils.NumberedCount | easy_prompting/_utils.py:51-61 | there is one numbered entry per argument that is not `None` |
| CoreUtils.NumberedPrefix | easy_prompting/_utils.py:51-61 | the entries for the first k arguments are a prefix of all the entries |
| CoreUtils.NumberedLabel | easy_prompting/_utils.py:52-57 | argument j, counted from zero, is numbered j+1 even when earlier arguments are `None` |
| CoreUtils.EnumerateText | easy_prompting/_utils.py:51-61 | the counter loop produces the numbered list that `Enumeration` specifies |
| CoreUtils.ExtractCode | easy_prompting/_utils.py:63-67 | without a regex match, the stripped text; with a match, the stripped captured group |
| CoreUtils.ExtractCodeNoFence | easy_prompting/_utils.py:65-66 | text without a fence is only stripped |
| CoreUtils.ExtractCodeOfBlock | easy_prompting/_utils.py:63-67 | a block fenced with a letters-only language tag gives back its stripped body |
| CodeFence.LetterRun | easy_prompting/_utils.py:64 | the `[a-zA-Z]*` run is maximal: letters up to its end, then a non-letter or the end of the text |
| CodeFence.BodyStart | easy_prompting/_utils.py:64 | the optional `[a-zA-Z]*\n` skips only letters and a newline |
| CodeFence.NoFenceInTag | easy_prompting/_utils.py:64 | no fence starts inside the skipped language tag |
| CodeFence.FenceSpan | easy_prompting/_utils.py:64 | no match exactly when no two fences exist in order; a match ends at the last fence of the text, as the greedy `(.*)` demands |
| CodeFence.FencedBody | easy_prompting/_utils.py:67 | `match.group(1)` is the text between the bounds `FenceSpan` finds |
| CodeFence.FencedBodyOfBlock | easy_prompting/_utils.py:64 | for a fenced block, the captured group is the body and its trailing newline |
| CodeFence.LetterRunOfTag | easy_prompting/_utils.py:64 | the letters after an opening fence are exactly the language tag |
| CodeFence.LetterRunExact | easy_prompting/_utils.py:64 | a run of exactly m letters ended by a non-letter has length m |
| Utils.PadText | easy_prompting/utils.py:30-33 | with `pad_first`, the same as the older `pad_text`; without it, only the continuation lines are padded |
| Utils.PadFirstPrefix | easy_prompting/utils.py:30-33 | the two modes differ only in the padding in front of the first line |
| Utils.PadContinuationLines | easy_prompting/utils.py:33 | without `pad_first`, the line count and the first line are kept, and each later line is prefixed |
| Utils.PadSingleLine | easy_prompting/utils.py:33 | a single line is left unchanged when the first line is not padded |
| Utils.ScopeText | easy_prompting/utils.py:35-36 | the same scope as the older copy |
| Utils.WrapText | easy_prompting/utils.py:56-57 | the same marker as the older copy |
| Utils.Continued | easy_prompting/utils.py:43 | every present entry has its continuation lines indented; `None` entries stay `None` |
| Utils.ContinuedPlain | easy_prompting/utils.py:43 | entries without a newline are unchanged |
| Utils.EnumerateText | easy_prompting/utils.py:38-48 | the counter loop produces the numbered list of the indented entries |
| Utils.EnumerationsAgree | easy_prompting/utils.py:38-48 | on single-line entries, both `enumerate_text` copies give the same text |
| Utils.ListText | easy_prompting/utils.py:50-54 | the older bullet list of the indented entries |
| Utils.SecondSegment | easy_prompting/utils.py:61 | `line.split(base)[1]` fails exactly when `base` is empty or absent; otherwise it is the text after the first `base`, up to the next one |
| Utils.CutHasNoSeparator | easy_prompting/utils.py:61 | the text before the first separator holds no separator |
| Utils.SegmentInLine | easy_prompting/utils.py:61 | the text from an index up to the next separator sits there in the line, is followed by the end of the line or the separator, and holds no separator |
| Utils.Segments | easy_prompting/utils.py:61 | fails exactly when some line has no segment; otherwise it gives one segment per line, in order |
| Utils.MultiStr | easy_prompting/utils.py:59-61 | fails exactly when a kept line has no segment |
| Utils.SegmentHasNoNewline | easy_prompting/utils.py:61 | a segment of a newline-free line holds no newline |
| Utils.SegmentsHaveNoNewline | easy_prompting/utils.py:61 | the segments of newline-free lines hold no newline |
| Utils.MultiStrLineByLine | easy_prompting/utils.py:59-61 | on success, for a text of at least three lines, the result has two lines fewer and its line i is the segment after `base` of line i+1 of the text; a shorter text gives `""` |
| Utils.MultiStrLines | easy_prompting/utils.py:60 | `text.split("\n")[1:-1]` is every line but the first and the last, and nothing when there are fewer than two |
| Utils.MultiStrOfBlock | easy_prompting/utils.py:59-61 | a block of lines each starting with `base`, between a first and a last line, gives back the text after `base` on each line |
| PrebuiltUtils.ListText | easy_prompting/prebuilt/_utils.py:8-12 | the same bullet list as the older helpers |
| PrebuiltUtils.NextFence | easy_prompting/prebuilt/_utils.py:18-19 | the first line from `from` on that starts with a fence, or `None` when there is none |
| PrebuiltUtils.FencePair | easy_prompting/prebuilt/_utils.py:18-22 | the first two fence lines, in order; `None` when there are fewer than two |
| PrebuiltUtils.ExtractCode | easy_prompting/prebuilt/_utils.py:14-25 | `extract_code` returns what `FirstBlock` specifies for the lines of the text |
| PrebuiltUtils.ScanLines | easy_prompting/prebuilt/_utils.py:16-25 | the loop that remembers the first fence line returns the stripped lines between the first two fence lines, `""` when every line is a fence line, and the join error otherwise |
| PrebuiltUtils.NoSecondFence | easy_prompting/prebuilt/_utils.py:18-25 | a scan that reaches the end has found fewer than two fence lines |
| PrebuiltUtils.DelimitCode | easy_prompting/prebuilt/_utils.py:27-28 | the lines are the opening fence with the keyword, the text's lines, then the closing fence |
| PrebuiltUtils.DelimitedLines | easy_prompting/prebuilt/_utils.py:27-28 | the lines of a delimited block, one for one |
| PrebuiltUtils.NextFenceAt | easy_prompting/prebuilt/_utils.py:18-22 | the first fence line from `from` on is at k when none comes before k |
| PrebuiltUtils.DelimiterPair | easy_prompting/prebuilt/_utils.py:18-22 | in a delimited block the two delimiters are the first fence pair |
| PrebuiltUtils.BlockOfDelimited | easy_prompting/prebuilt/_utils.py:18-22 | the lines between the two delimiters, joined and stripped, are the block of a delimited list of lines |
| PrebuiltUtils.ExtractDelimited | easy_prompting/prebuilt/_utils.py:14-28 | round trip: `extract_code(delimit_code(text))` is the stripped text when no line of the text starts with a fence |
| PrebuiltUtils.NextFenceExtend | easy_prompting/prebuilt/_utils.py:18-22 | appending lines does not move the first fence found |
| PrebuiltUtils.BlockOfLinesExtend | easy_prompting/prebuilt/_utils.py:18-21 | lines appended after the first two fence lines do not change the result |
| PrebuiltUtils.LaterLinesIgnored | easy_prompting/prebuilt/_utils.py:20-21 | once two fence lines have been seen, later text does not change the result |
| PrebuiltUtils.NoFenceFails | easy_prompting/prebuilt/_utils.py:23-25 | text without a fence line reaches the final join of a list of lists, which raises |
| LegacyTools.ExtractCode | easy_prompt/tools.py:3-9 | without a match the text is returned unstripped; with a match, the same result as the newer copy |
| LegacyTools.ExtractCodeCopiesAgree | easy_prompt/tools.py:3-9 | the newer `extract_code` is the older one stripped |
| LegacyTools.ExtractCodeOfBlock | easy_prompt/tools.py:3-9 | a fenced block with a letters-only tag gives back its stripped body |
| LegacyTools.If | easy_prompt/tools.py:11 | the text when the flag holds, empty otherwise |
| LegacyTools.IfNot | easy_prompt/tools.py:12 | `If` of the negated flag |
| LegacyTools.IfElse | easy_prompt/tools.py:13 | the first text when the flag holds, the second otherwise; with an empty second text it is `If` |
| LegacyTools.IfIfNotSplit | easy_prompt/tools.py:11-12 | exactly one of `If` and `IfNot` yields the text |
| Messages.NewMessage | easy_prompting/_message.py:4-7 | the constructor succeeds exactly for the three roles and stores content and role |
| Messages.ToDict | easy_prompting/_message.py:15-16 | exactly the keys `content` and `role`, holding the fields |
| Messages.ToDictInjective | easy_prompting/_message.py:15-16 | two messages with the same dictionary are equal |
| Messages.Str | easy_prompting/_message.py:9-10 | the length is the role, the header characters, and the content with each newline padded by ` \| ` |
| Messages.StrLines | easy_prompting/_message.py:9-10 | the first line is the upper-cased role and a colon; the remaining lines are the content's lines, each prefixed by ` \| ` |
| Messages.Length | easy_prompting/_message.py:18-20 | the total is zero exactly when every content is empty |
| Messages.LengthConcat | easy_prompting/_message.py:18-20 | the total length is additive over concatenation of histories |
| Messages.LengthSingle | easy_prompting/_message.py:18-20 | one message contributes the length of its content |
| Messages.Repr | easy_prompting/_message.py:12-13 | `Message(role=…, content=…)` on one line |
| Messages.Unquoted | easy_prompting/_message.py:13 | reading a quoted string consumes input |
| Messages.UnquotedEscaped | easy_prompting/_message.py:13 | reading undoes the escaping and stops at the closing quote |
| Messages.ParseRepr | easy_prompting/_message.py:12-13 | reading one representation consumes input |
| Messages.ParseReprOf | easy_prompting/_message.py:12-13 | a representation reads back as the message it was written from |
| Messages.ReprInjective | easy_prompting/_message.py:12-13 | different messages have different representations |
| CacheKeys.Reprs | easy_prompting/_prompter.py:122 | one `repr` per message, in order |
| CacheKeys.ParseReprsOf | easy_prompting/_prompter.py:122 | a non-empty history reads back from its key |
| CacheKeys.ParseKeyOf | easy_prompting/_prompter.py:122 | every history, the empty one included, reads back from its key |
| CacheKeys.CacheKeyInjective | easy_prompting/_prompter.py:122 | different histories give different cache keys |
| LegacyMessage.Str | easy_prompt/message.py:7-9 | the text is at least the role, the colon and one ` # ` |
| LegacyMessage.ConcatPrefixed | easy_prompt/message.py:8 | prefixing every part and concatenating is the prefix followed by the parts joined with the prefix |
| LegacyMessage.ReplacedHasNoNewline | easy_prompt/message.py:8 | replacing every newline by newline-free text leaves no newline |
| LegacyMessage.StrFlattens | easy_prompt/message.py:7-9 | `__str__` is the role, `: # `, and the content with every newline turned into ` # ` |
| LegacyMessage.StrIsOneLine | easy_prompt/message.py:7-9 | a message with a valid role prints on one line |
| LegacyOption.Description | easy_prompt/option.py:11-18 | its length is that of the four fields plus the fixed step texts, and it starts with the condition |
| LegacyOption.DescriptionParts | easy_prompt/option.py:11-18 | the description is exactly the condition followed by the four numbered steps |
| LegacyOption.DescriptionAsksForStop | easy_prompt/option.py:16 | every description tells the model to write `(done)` |
| Slicing.Marker | easy_prompting/prebuilt/instructions.py:83 | a marker is four characters longer than its key |
| Slicing.MarkerIsWrapped | easy_prompting/prebuilt/instructions.py:83 | the marker is the one `wrap_text` writes |
| Slicing.SplitAtMarkers | easy_prompting/prebuilt/instructions.py:82-87 | one head per key, and the rest shrinks by each marker; a failure names a key whose marker is absent from what remained |
| Slicing.Slices | easy_prompting/prebuilt/instructions.py:88 | one slice per key; it fails exactly when the split fails |
| Slicing.SplitKeys | easy_prompting/prebuilt/instructions.py:82-87 | the splitting loop computes `SplitAtMarkers` |
| Slicing.SplitRebuilds | easy_prompting/prebuilt/instructions.py:82-88 | splitting loses nothing: the first head, then each marker with its slice, rebuild the text |
| Slicing.RenderStep | easy_prompting/prebuilt/instructions.py:82-88 | rendering is one marker and slice followed by the rendering of the rest |
| Slicing.MarkerSplit | easy_prompting/prebuilt/instructions.py:86 | a marker whose key holds no `[` splits exactly at the place it was written |
| Slicing.RenderSplits | easy_prompting/prebuilt/instructions.py:82-87 | round trip, for keys without `[`, a prefix without the first marker and slices without the next marker (`Separable`): splitting a rendered text gives back the prefix and the slices |
| Slicing.SeparableRest | easy_prompting/prebuilt/instructions.py:82-87 | separability carries over to the keys after the first |
| Slicing.SplitStep | easy_prompting/prebuilt/instructions.py:86 | the loop is one split followed by the loop over the remaining keys |
| Slicing.RenderSlices | easy_prompting/prebuilt/instructions.py:82-88 | round trip under `Separable` (keys without `[`, no slice holding the next marker): every key gets back exactly its slice |
| Slicing.ContainsAfterSplit | easy_prompting/prebuilt/instructions.py:86 | what remains after a split is part of the text |
| Slicing.AbsentKeyFails | easy_prompting/prebuilt/instructions.py:84-85 | a key whose marker occurs nowhere makes the extraction raise |
| InstructionTree.Keys | easy_prompting/prebuilt/instructions.py:82-83 | one key per item, in order |
| InstructionTree.PlainItems | easy_prompting/prebuilt/instructions.py:48-51 | one item without a nested instruction per key |
| InstructionTree.TextI | easy_prompting/prebuilt/instructions.py:24-27 | a `DataI` whose extractor strips the text |
| InstructionTree.ListI | easy_prompting/prebuilt/instructions.py:56-63 | refused exactly for an empty item list; with `add_stop` the `stop` item is appended |
| InstructionTree.IList | easy_prompting/_instruction.py:27-31 | the same node as `ListI` without `add_stop` |
| InstructionTree.RepetitionI | easy_prompting/prebuilt/instructions.py:102-105 | refused exactly for an empty item list |
| InstructionTree.ConstructedWellFormed | easy_prompting/prebuilt/instructions.py:56-63 | the constructors build well-formed nodes from well-formed parts |
| InstructionTree.GetStop | easy_prompting/prebuilt/instructions.py:96-99 | the `[[stop]]` marker exactly when `add_stop` was set |
| Extraction.ItemValues | easy_prompting/prebuilt/instructions.py:90-91 | one value per remaining item on success |
| Extraction.Groups | easy_prompting/prebuilt/instructions.py:122-139 | at least one group on success |
| Extraction.OptionMarkers | easy_prompting/prebuilt/instructions.py:162 | one marker per option |
| Extraction.Extract | easy_prompting/prebuilt/instructions.py:18-22 | the loops of every node's `extract` compute `Extracted` |
| Extraction.ExtractList | easy_prompting/prebuilt/instructions.py:80-94 | `ListI.extract` computes `Extracted` for a list node, the stop item's value dropped when there is one |
| Extraction.ExtractRepetition | easy_prompting/prebuilt/instructions.py:118-139 | the `while True` loop of `RepetitionI.extract` computes `Groups`, one group per pass |
| Extraction.PassSlices | easy_prompting/prebuilt/instructions.py:131-133 | the slices of one pass, the last cut before the next first marker |
| Extraction.ExtractChoice | easy_prompting/prebuilt/instructions.py:155-163 | `ChoiceI.extract` returns the first option, in declared order, whose first marker occurs, or fails naming all markers |
| Extraction.ExtractEach | easy_prompting/prebuilt/instructions.py:89-91 | the per-item loop computes `ItemValues` |
| ExtractionFacts.Strs | easy_prompting/prebuilt/instructions.py:91 | each slice as a raw text value |
| ExtractionFacts.PlainValues | easy_prompting/prebuilt/instructions.py:89-91 | items without a nested instruction yield their raw slices |
| ExtractionFacts.ListOfRendered | easy_prompting/prebuilt/instructions.py:79-94 | a list extracts from any text in which its markers are written in order |
| ExtractionFacts.ListRoundTrip | easy_prompting/prebuilt/instructions.py:79-94 | round trip under `Separable` (keys without `[`, no slice holding the next marker): rendered markers and slices extract to exactly the slices |
| ExtractionFacts.ListStopRoundTrip | easy_prompting/prebuilt/instructions.py:92-93 | under `Separable`, with `add_stop`, the stop slice is dropped and the others come back |
| ExtractionFacts.ListMissingKey | easy_prompting/prebuilt/instructions.py:84-85 | a missing marker raises, naming a key absent from the remaining text |
| ExtractionFacts.ListResultSize | easy_prompting/prebuilt/instructions.py:89-94 | one value per item, less the stop item |
| ExtractionFacts.RenderAppendLast | easy_prompting/prebuilt/instructions.py:88 | appending text to a rendering extends its last slice |
| ExtractionFacts.CutBeforeNextGroup | easy_prompting/prebuilt/_instructions.py:102-103 | the last slice of a pass is cut at the next group's first marker |
| ExtractionFacts.RenderStartsWithMarker | easy_prompting/prebuilt/_instructions.py:89 | a rendering of groups starts with the first marker |
| ExtractionFacts.PassOfRendered | easy_prompting/prebuilt/_instructions.py:94-103 | one pass over a rendered group yields that group and leaves the later ones |
| ExtractionFacts.SeparableLastFree | easy_prompting/prebuilt/_instructions.py:101 | separability does not depend on the last slice |
| ExtractionFacts.GroupValues | easy_prompting/prebuilt/_instructions.py:107 | one list of raw values per group |
| ExtractionFacts.GroupsStep | easy_prompting/prebuilt/_instructions.py:93-109 | a pass ends the loop when the first marker no longer occurs and continues otherwise |
| ExtractionFacts.GroupSlicesOf | easy_prompting/prebuilt/_instructions.py:101-103 | the slices of a pass are the group that was written |
| ExtractionFacts.GroupsOfRendered | easy_prompting/prebuilt/_instructions.py:92-109 | the passes over rendered groups give back every group, in order |
| ExtractionFacts.RepetitionRoundTrip | easy_prompting/prebuilt/instructions.py:117-139 | round trip under `Separable` (keys without `[`, no slice holding the next marker): groups rendered with their markers extract to exactly those groups |
| ExtractionFacts.RepetitionWithoutFirstMarker | easy_prompting/prebuilt/instructions.py:119-121 | with no first marker the result is the empty list and no error |
| ExtractionFacts.RepetitionMissingKey | easy_prompting/prebuilt/instructions.py:127-128 | a missing marker raises once the first marker occurs |
| ExtractionFacts.RepetitionPassShrinks | easy_prompting/prebuilt/instructions.py:123-139 | every pass consumes text, so the loop ends |
| ExtractionFacts.ChoiceSkips | easy_prompting/prebuilt/instructions.py:158-161 | options whose first marker is absent are skipped |
| ExtractionFacts.ChoiceFirstDeclared | easy_prompting/prebuilt/instructions.py:155-161 | the first declared option whose first marker occurs is chosen, with its key and its list's extraction |
| ExtractionFacts.ChoiceNoValidKey | easy_prompting/prebuilt/instructions.py:162-163 | raises when no option's first marker occurs |
| ExtractionFacts.ChoiceIsFirstDeclared | easy_prompting/prebuilt/instructions.py:155-161 | conversely, a successful choice comes from the first declared option whose marker occurs |
| ExtractionFacts.TextIStrips | easy_prompting/prebuilt/instructions.py:24-27 | `TextI` extracts the stripped text, and extracting that again changes nothing |
| ExtractionFacts.DataIWrapsErrors | easy_prompting/prebuilt/instructions.py:17-22 | an extractor that raises becomes `ExtractionError`; otherwise its value is returned |
| ExtractionFacts.CodeIRoundTrip | easy_prompting/prebuilt/instructions.py:29-33 | a block written by `delimit_code` extracts to its stripped code |
| Descriptions.WriteMarker | easy_prompting/prebuilt/instructions.py:69 | a newline-free key gives a newline-free step |
| Descriptions.ListDescriptionAsWritten | easy_prompting/_instruction.py:33-45 | raises exactly when the list has an effect |
| Descriptions.Steps | easy_prompting/prebuilt/instructions.py:67-71 | at least one step per item, every one present |
| Descriptions.OptionDescriptions | easy_prompting/prebuilt/instructions.py:151 | one description per option, in order |
| Descriptions.EnumerateText | easy_prompting/prebuilt/instructions.py:40-45 | the numbering loop of the style's helper module |
| Descriptions.Describe | easy_prompting/prebuilt/instructions.py:13-152 | the loops of every node's `describe` compute `Description` |
| Descriptions.DescribeItems | easy_prompting/prebuilt/instructions.py:67-71 | the item loop computes `Steps` |
| DescriptionFacts.ScopeContains | easy_prompting/_utils.py:42-43 | a single-line fragment survives `scope_text` |
| DescriptionFacts.EnumerateContains | easy_prompting/_utils.py:51-61 | every single-line entry shows in the numbered list |
| DescriptionFacts.StepOfItem | easy_prompting/prebuilt/instructions.py:68-69 | each item's `Write "[[key]]"` step is among the steps |
| DescriptionFacts.AnnouncesItemKey | easy_prompting/prebuilt/instructions.py:66-77 | a list or repetition announces every marker its extraction splits at |
| DescriptionFacts.PresentAll | easy_prompting/_utils.py:46 | with no `None` argument, every argument is kept |
| DescriptionFacts.AnnouncesOptionKey | easy_prompting/prebuilt/instructions.py:147-152 | a choice announces every key of every option |
| DescriptionFacts.CodeSteps | easy_prompting/prebuilt/instructions.py:35-46 | `CodeI.describe` is "Do the following" followed by a scope of exactly three numbered steps |
| DescriptionFacts.ContinuedThree | easy_prompting/utils.py:43 | only the middle of three entries is indented |
| DescriptionFacts.ThreeSteps | easy_prompting/_utils.py:51-61 | the numbered list of three entries |
| DescriptionFacts.NumberedStep | easy_prompting/_utils.py:54-57 | one more present argument adds one numbered entry at the end |
| DescriptionFacts.ShowsEffect | easy_prompting/prebuilt/instructions.py:72-77 | a list with an effect shows `-> ` followed by the effect's first line |
| DescriptionFacts.StylesAgreeOnSingleLines | easy_prompting/prebuilt/_instructions.py:39-45 | the two helper modules describe alike when no step spans several lines |
| DescriptionFacts.EffectRaisesAsWritten | easy_prompting/_instruction.py:40-44 | the older `IList.describe` raises for every list with an effect |
| DescriptionFacts.AsWrittenWithoutEffect | easy_prompting/_instruction.py:33-45 | without an effect it returns the corrected description |
| Summaries.PrefixLength | easy_prompting/_prompter.py:162-165 | running totals only grow |
| Summaries.ExcludedAtFirstReach | easy_prompting/_prompter.py:165-168 | the loop stops at the first message whose running total reaches `include_size` and keeps what follows |
| Summaries.ExcludedNeverReached | easy_prompting/_prompter.py:162-168 | when the total never reaches `include_size`, nothing is kept |
| Summaries.ExcludedSuffix | easy_prompting/_prompter.py:159-168 | the kept messages are a suffix in original order; the dropped prefix reaches `include_size` and is non-empty |
| Summaries.ExcludedShrinks | easy_prompting/_prompter.py:159-168 | the kept messages total at most the history less `include_size` |
| Summaries.ConversationShowsAll | easy_prompting/_prompter.py:170 | the summariser is shown every message of the history |
| Prompting.Host.constructor | easy_prompting/_utils.py:15-29 | the host holds the given files and hash function |
| Prompting.FirstKey | easy_prompting/_prompter.py:152-155 | the first option whose key occurs in the completion, none before it occurring |
| Prompting.Prompter.constructor | easy_prompting/_prompter.py:17-24 | an empty history and every optional setting unset |
| Prompting.Prompter.SetMessages | easy_prompting/_prompter.py:40-42 | the history is replaced and nothing else changes |
| Prompting.Prompter.SetSummary | easy_prompting/_prompter.py:68-74 | the sizes are stored, and the assertion fails exactly when they are inconsistent |
| Prompting.Prompter.GetCopy | easy_prompting/_prompter.py:79-86 | a fresh prompter with the same history and settings, but no tag |
| Prompting.Prompter.AddMessage | easy_prompting/_prompter.py:88-104 | an invalid role changes nothing; otherwise the history becomes `Added`, and `SummaryError` is raised exactly when the summary stays too long |
| Prompting.Prompter.AddCompletion | easy_prompting/_prompter.py:116-133 | the completion is cached or fetched and stored, then has the stop string appended; the state becomes `Completed` |
| Prompting.Prompter.GetCompletion | easy_prompting/_prompter.py:135-140 | corrected: the completion that was added, cut before the first stop string |
| Prompting.Prompter.GetCompletionAsWritten | easy_prompting/_prompter.py:135-140 | as written: the content of the last message of the history, cut before the stop string |
| Prompting.Prompter.GetChoice | easy_prompting/_prompter.py:135-156 | as written: asks with the menu, completes with the stop key through the as-written `get_completion`, then chooses the first declared option whose key occurs in the last message's content cut at the stop key; every error path and the new state are stated |
| Prompting.Prompter.GetChoiceCorrected | easy_prompting/_prompter.py:142-156 | corrected: the same, but the option is chosen from the completion that was added |
| Prompting.Prompter.ChooseOption | easy_prompting/_prompter.py:152-156 | the loop over the options returns the first declared option whose key occurs, with the stripped text after it, or `ChoiceError` |
| Prompting.Prompter.CollectExcluded | easy_prompting/_prompter.py:159-168 | the loop computes `Summaries.Excluded` |
| Prompting.Prompter.WriteSummary | easy_prompting/_prompter.py:171-183 | the nested prompter's summary is the cached or fetched completion of the summary request |
| Prompting.Prompter.Summarize | easy_prompting/_prompter.py:158-190 | the history becomes the summary message followed by the kept messages |
| PromptingFacts.SummaryKeepsSuffix | easy_prompting/_prompter.py:100-101 | after a summary, the history is the summary followed by a suffix of the old one |
| PromptingFacts.SummaryShrinks | easy_prompting/_prompter.py:100-103 | a summary removes at least `include_size` characters of earlier messages |
| PromptingFacts.AddBelowStart | easy_prompting/_prompter.py:100 | below `start_size`, `add_message` only appends and never raises |
| PromptingFacts.SummarySwallowsLast | easy_prompting/_prompter.py:159-168 | if the earlier history is below `include_size`, the summary replaces every message |
| PromptingFacts.AsWrittenReturnsSummary | easy_prompting/_prompter.py:135-137 | in that case the last message is the developer summary, not the completion |
| PromptingFacts.AsWrittenChoiceReadsSummary | easy_prompting/_prompter.py:150-156 | when the summary holds no option key but the completion holds the first one, the as-written `get_choice` raises `ChoiceError` while the completion names that option |
| PromptingFacts.CacheHit | easy_prompting/_prompter.py:122-123 | a cache hit returns the stored text and leaves the files unchanged |
| PromptingFacts.CacheMiss | easy_prompting/_prompter.py:124-126 | a cache miss asks the model and stores its answer |
| PromptingFacts.CacheReplays | easy_prompting/_prompter.py:119-126 | asking again for the same history replays the first answer |
| PromptingFacts.CutStopIsPrefix | easy_prompting/_prompter.py:128-139 | the returned text is a prefix of the completion, without the stop string |
| PromptingFacts.CutStopKeepsCompletion | easy_prompting/_prompter.py:128-139 | when the stop string does not occur earlier, the returned text is the model's completion |
| PromptingFacts.ChoiceIsFirstDeclared | easy_prompting/_prompter.py:152-156 | the choice follows declared order, not position in the text, and fails when no key occurs |
| PromptingFacts.LogTextShape | easy_prompting/_prompter.py:91-98 | the logged text starts with the upper-cased role, the optional tag and the index |
| LegacyPrompting.MessageList.constructor | easy_prompt/prompter.py:28 | a list object holding the given messages |
| LegacyPrompting.Summarizing | easy_prompt/prompter.py:105-143 | on success, the history is below `start_size`; only the two summary errors occur, and an unjoinable cache key leaves the history unchanged |
| LegacyPrompting.Fetched | easy_prompt/prompter.py:74-82 | with a cache directory, fails exactly for a non-empty history, which cannot be joined |
| LegacyPrompting.Names | easy_prompt/prompter.py:101 | the set of option names, in both directions |
| LegacyPrompting.ReadChoice | easy_prompt/prompter.py:98-103 | fails with the format error exactly when there is no separator; on success, the name is a declared one, stripped, from before the first separator, and the data is stripped |
| LegacyPrompting.Prompter.constructor | easy_prompt/prompter.py:13-18 | a fresh empty list and every optional setting unset |
| LegacyPrompting.Prompter.ClearMessages | easy_prompt/prompter.py:27-29 | `set_messages()` installs a fresh empty list |
| LegacyPrompting.Prompter.SetMessages | easy_prompt/prompter.py:27-29 | the given list object itself is installed, not a copy |
| LegacyPrompting.Prompter.SetSummary | easy_prompt/prompter.py:48-54 | the sizes are stored, and the assertion fails exactly when they are inconsistent |
| LegacyPrompting.Prompter.GetCopy | easy_prompt/prompter.py:59-64 | a fresh prompter sharing this one's list object and settings |
| LegacyPrompting.Prompter.AddMessage | easy_prompt/prompter.py:66-72 | the old list object receives the message in place, then the history is summarised as `Summarizing` states |
| LegacyPrompting.Prompter.Summarize | easy_prompt/prompter.py:105-143 | the history and outcome are those of `Summarizing` |
| LegacyPrompting.Prompter.CollectExcluded | easy_prompt/prompter.py:112-121 | the loop computes `Summaries.Excluded` |
| LegacyPrompting.Prompter.WriteSummary | easy_prompt/prompter.py:123-134 | with a cache the nested completion raises; otherwise it is the model's answer to the summary request |
| LegacyPrompting.Prompter.AddCompletion | easy_prompt/prompter.py:74-84 | the files and history follow `Fetched` and `Summarizing`; an unjoinable key raises |
| LegacyPrompting.Prompter.GetCompletion | easy_prompt/prompter.py:86-88 | corrected: returns the fetched completion itself; the files, the history, the list object that received the completion and whether a fresh list replaced it are stated on every path |
| LegacyPrompting.Prompter.GetCompletionAsWritten | easy_prompt/prompter.py:86-88 | as written: returns the last message's content; the new state is stated as for `GetCompletion` |
| LegacyPrompting.Prompter.GetChoice | easy_prompt/prompter.py:86-103 | as written: asks with every description, completes with `(done)` as the stop, then reads the last message's content; on every path the result, the history, the files and the old list object's contents are stated |
| LegacyPrompting.Prompter.GetChoiceCorrected | easy_prompt/prompter.py:94-103 | corrected: the same, but the answer read is the completion that was fetched |
| LegacyPrompting.Prompter.ReadAnswer | easy_prompt/prompter.py:98-103 | the separator check, the strip and the name check compute `ReadChoice` |
| LegacyPromptingFacts.SummaryKeepsSuffix | easy_prompt/prompter.py:112-140 | a triggered summary leaves the summary followed by an unchanged suffix, and the dropped prefix reached `include_size` |
| LegacyPromptingFacts.SummaryShowsAll | easy_prompt/prompter.py:123-131 | the summariser is shown every message |
| LegacyPromptingFacts.SummarySwallowsLast | easy_prompt/prompter.py:115-121 | if the earlier history is below `include_size`, the summary replaces every message |
| LegacyPromptingFacts.AsWrittenReturnsSummary | easy_prompt/prompter.py:86-88 | in that case the last message is the developer summary, not the completion |
| LegacyPromptingFacts.AsWrittenChoiceReadsSummary | easy_prompt/prompter.py:97-103 | in that case the as-written `get_choice` reads the summary and rejects `Here is a summary of the conversation until this point`, which names no option, as an invalid choice, while the completion `name:data` reads back as the named option |
| LegacyPromptingFacts.SummarySplitsAtLead | easy_prompt/prompter.py:100 | a summary message splits at its first `:`, right after its lead sentence |
| LegacyPromptingFacts.CacheReplays | easy_prompt/prompter.py:77-82 | with a cache, the empty history's answer is stored once and replayed whatever the stop string |
| LegacyPromptingFacts.ChoiceRequestShowsOptions | easy_prompt/prompter.py:95-96 | the request shows every option's description and asks for `(done)` |
| LegacyPromptingFacts.ChoiceRoundTrip | easy_prompt/prompter.py:98-103 | an answer `name:data` for a declared name reads back as that option with stripped data |
| LegacyPromptingFacts.ChosenNameHasNoSeparator | easy_prompt/prompter.py:100 | a chosen name never contains the separator |
| Logging.Logger.constructor | easy_prompting/logger.py:7-8 | a new logger is verbose |
| Logging.Logger.SetVerbose | easy_prompting/logger.py:10-14 | the flag that `get_verbose` returns |
| Logging.Logger.Log | easy_prompting/logger.py:22-24 | the message reaches `_log` exactly when the logger is verbose |
| Logging.Logger.Close | easy_prompting/logger.py:30-32 | closing is recorded whatever the flag |
| Logging.Logger.Enter | easy_prompting/logger.py:16-17 | `__enter__` returns the logger itself |
| Logging.Logger.Exit | easy_prompting/logger.py:19-20 | `__exit__` closes the logger |
| Loggers.TagRepr | easy_prompting/prebuilt/_loggers.py:10 | the tag's `repr` is one line |
| Loggers.IdxText | easy_prompting/prebuilt/_loggers.py:10 | the index text is one line |
| Loggers.MessageToStrLines | easy_prompting/prebuilt/_loggers.py:8-12 | one header line naming tag, role and index, then every content line padded |
| Loggers.Printed | easy_prompting/prebuilt/_loggers.py:27-28 | at most one printed text per event |
| Loggers.Forwarded | easy_prompting/prebuilt/_loggers.py:105-107 | at most one event per logger of the list |
| Loggers.ClosedAll | easy_prompting/prebuilt/_loggers.py:111-112 | every logger closes, in list order |
| Loggers.ForwardedToAll | easy_prompting/prebuilt/_loggers.py:105-107 | when all loggers are verbose, each receives the message in list order |
| Loggers.ForwardedSkipsQuiet | easy_prompting/logger.py:22-24 | a quiet logger of the list receives nothing |
| Loggers.ForwardedSilent | easy_prompting/prebuilt/_loggers.py:105-107 | a name not in the list receives nothing |
| Loggers.LogList.constructor | easy_prompting/prebuilt/_loggers.py:93-95 | verbose, with the given loggers, all writing to the list's journal |
| Loggers.LogList.SetVerbose | easy_prompting/logger.py:10-11 | the inherited setter changes the flag and keeps the loggers |
| Loggers.LogList.SetLoggers | easy_prompting/prebuilt/_loggers.py:97-99 | the loggers are replaced, the flag kept, and the list stays consistent |
| Loggers.LogList.Log | easy_prompting/prebuilt/_loggers.py:105-107 | when verbose, the journal gains exactly `Forwarded` |
| Loggers.LogList.Close | easy_prompting/prebuilt/_loggers.py:111-112 | the journal gains `ClosedAll` |
| Loggers.Cropped | easy_prompting/prebuilt/_loggers.py:134-140 | the role is kept; without a crop at offset 0 the message is unchanged |
| Loggers.ShiftedAt | easy_prompting/prebuilt/_loggers.py:142-146 | offset k is in the new table exactly when k+1 was, with the same limit; offset 0 is dropped |
| Loggers.CropKeepsShort | easy_prompting/prebuilt/_loggers.py:137 | content within the limit is handed on unchanged |
| Loggers.CropShowsHead | easy_prompting/prebuilt/_loggers.py:137-140 | longer content keeps its first `limit` lines, then a note of how many were cropped |
| Loggers.ShiftedTimesAt | easy_prompting/prebuilt/_loggers.py:142-146 | after n messages, offset k holds the limit that was set at offset k+n |
| Loggers.CropSchedule | easy_prompting/prebuilt/_loggers.py:127-146 | a crop added at offset n applies to exactly the n-th following message |
| Loggers.ShiftCrops | easy_prompting/prebuilt/_loggers.py:142-146 | the loop builds `Shifted` |
| Loggers.WithCrop | easy_prompting/prebuilt/_loggers.py:127-129 | the offset is added; other offsets are kept; the new limit is the smaller of the old and the given one |
| Loggers.LogReadable.constructor | easy_prompting/prebuilt/_loggers.py:115-118 | verbose, with no crops |
| Loggers.LogReadable.SetVerbose | easy_prompting/logger.py:10-11 | the inherited setter changes the flag and keeps the crops and the inner logger |
| Loggers.LogReadable.SetLogger | easy_prompting/prebuilt/_loggers.py:120-122 | the inner logger is replaced and the crops kept |
| Loggers.LogReadable.AddCrop | easy_prompting/prebuilt/_loggers.py:127-129 | the table becomes `WithCrop` |
| Loggers.LogReadable.Log | easy_prompting/prebuilt/_loggers.py:132-148 | when verbose, the table shifts, and the inner logger receives the message cropped by the old table; when quiet, nothing changes |
| Loggers.LogReadable.Close | easy_prompting/prebuilt/_loggers.py:151-152 | closes the inner logger |
| FormatLogging.FormattedKeepsShort | easy_prompting/prebuilt/_logger.py:27-36 | without a limit, or within it, the text is handed on unchanged |
| FormatLogging.FormattedHides | easy_prompting/prebuilt/_logger.py:29-33 | over the limit, exactly `max_lines` lines are kept, then the note of how many were hidden |
| FormatLogging.FormatLogger.constructor | easy_prompting/prebuilt/_logger.py:5-7 | the target is set and there is no line limit |
| FormatLogging.FormatLogger.SetTarget | easy_prompting/prebuilt/_logger.py:9-11 | the target is replaced and the limit kept |
| FormatLogging.FormatLogger.SetMaxLines | easy_prompting/prebuilt/_logger.py:16-18 | the limit is replaced and the target kept |
| FormatLogging.FormatLogger.GetCopy | easy_prompting/prebuilt/_logger.py:23-25 | a fresh logger with the same target and limit |
| FormatLogging.FormatLogger.Write | easy_prompting/prebuilt/_logger.py:27-36 | the target receives `Formatted`; the result is the length of the given text |
| FormatLogging.FormatLogger.Flush | easy_prompting/prebuilt/_logger.py:38-39 | the target is flushed once and its text is unchanged |

## Left out

**Not modelled**
- Console and file I/O are not modelled:
  - printing to streams and files;
  - `input()` in `Prompter.interact` (`easy_prompting/_prompter.py:106-114`), so the interaction hook is not part of the model;
  - `create_interceptor` in `easy_prompting/prebuilt/_utils.py`;
  - `create_dir`, `load_text` and `save_text` beyond the files map of `Prompting.Host`.
- `clear_cache` in `easy_prompt/prompter.py:90-92` is not modelled. It saves `None` to a path, which the files map cannot hold.
- Hashing is not modelled: `hash_str` (BLAKE2b) is a function parameter of the host. Distinct keys are proved (`CacheKeys.CacheKeyInjective`), but a collision-free hash is not.
- The language model is a pure function of the history and the stop string. Its randomness and network access are not modelled.
- `easy_prompting/_option.py` is not part of this model. The menu, `create_key` and `Option.stop` of the newer `get_choice` are parameters of `Prompting.Prompter.GetChoice` and `Prompting.Prompter.GetChoiceCorrected`.
- `easy_prompting/prebuilt/_instructions.py:3` imports `ItemI` and `ListI`, which `easy_prompting/_instruction.py` does not define; it defines `IItem` and `IList`. The model reads the two names as those classes.
- `easy_prompting/prebuilt/utils.py` is not part of this model. `prebuilt/instructions.py` imports it; the model takes it to be `prebuilt/_utils.py`.
- `easy_prompting/_utils.py` defines no `pad`, although `_message.py` and `_prompter.py` import one. The model reads it as `pad_text`.
- `easy_prompting/prebuilt/_loggers.py:5` subclasses `Logger` from `easy_prompting/_logger.py`. That class is abstract in `log(text)` and `close()`, has no `verbose` flag, and the prebuilt classes override only `_log`, so as written they cannot be instantiated. The model reads them as subclasses of the `Logger` of `easy_prompting/logger.py`, with its verbose gate and `set_verbose`.
- `easy_prompting/prebuilt/_loggers.py:10-11, 136, 140` call `message.get_role()` and `message.get_content()`, which `easy_prompting/_message.py` does not define. The model reads them as the message's `role` and `content` fields.

**Simplified by design**
- The plain getters and setters are field reads and writes of the classes: `get_llm`, `set_llm`, `set_tag`, `set_cache_path`, `set_logger`, `set_interaction`, `get_verbose` and the padding, target and file getters.
- Messages.Repr: `repr` escaping covers backslashes, single quotes and newlines only. Python's escapes for other control characters are not modelled, nor its switch to double quotes when the text holds a single quote and no double quote.
- Text.Upper: only ASCII letters are upper-cased.
- Loggers.Printed: the printing loggers `LogPrint`, `LogFunc` and `LogFile` are one `Logging.Logger` that records events in a `Journal`. Their output text is `Printed`/`MessageToStr`, without the `"\n\n"` print end.
- `LogList` children and the `LogReadable` inner logger are concrete `Logging.Logger`s. A list inside a list is not modelled.
- Loggers.ShiftCrops: the order of dictionary iteration is left open. The shifted table does not depend on it.

**Preconditions the source does not state**
- The class methods require `Valid()`, the consistency that `set_summary`'s assertion enforces. A prompter whose failed `set_summary` left inconsistent sizes is not modelled further.
- Prompting.Prompter.Summarize: requires `include_size`. The source never calls `summarize` without it, because `start_size` implies it.
- Prompting.Prompter.CollectExcluded: the unused `included` list of `summarize` is not built.

**Source behaviour modelled as written, not fixed**
- PrebuiltUtils.ExtractCode: `new_lines.append(lines)` at `easy_prompting/prebuilt/_utils.py:24` appends the whole list. The final join then raises `TypeError` whenever fewer than two fence lines exist. This is modelled as `Failure(JoinOfLists)`; the evidently intended fallback is not.
- LegacyPrompting.Fetched: `"\n\n".join(self.messages)` at `easy_prompt/prompter.py:78` joins message objects. It raises for every non-empty history (`NotJoinable`), so only the empty history can be cached.

## Findings

| source | as written | input that shows it | evidently intended | confidence | as-written member | corrected member |
|---|---|---|---|---|---|---|
| easy_prompting/_instruction.py:44 | `IList.describe` calls `pad_text(self._effect, pad_first=False)`, but `easy_prompting/_utils.py:36` has no `pad_first` parameter, so it raises `TypeError` | `IList("c", IItem("a"), effect="e").describe()` | the effect line `-> e`, with continuation lines indented, as `prebuilt/instructions.py:76` writes it | not executed | DescriptionFacts.EffectRaisesAsWritten | DescriptionFacts.ShowsEffect |
| easy_prompting/_prompter.py:135-140 | `get_completion` returns the last message of the history, which `add_message` may just have replaced by a summary | `start_size = include_size = 1000`, a history of 10 characters, a model answer of 2000 characters: the history becomes the single summary message, and its text is returned | the completion that was added | not executed | PromptingFacts.AsWrittenReturnsSummary | Prompting.Prompter.GetCompletion |
| easy_prompt/prompter.py:86-88 | the same: `messages[-1].content` after `add_completion` | the same sizes and history | the completion that was added | not executed | LegacyPromptingFacts.AsWrittenReturnsSummary | LegacyPrompting.Prompter.GetCompletion |
| easy_prompting/_prompter.py:151 | `get_choice` chooses from `get_completion`, so it searches the summary for the option keys | the sizes above, a history (menu included) below `include_size`, and a completion that takes it past `start_size` and holds the first option's key, which the summary lacks | the option named in the completion | not executed | PromptingFacts.AsWrittenChoiceReadsSummary | Prompting.Prompter.GetChoiceCorrected |
| easy_prompt/prompter.py:97 | `get_choice` reads `get_completion`, so it reads the summary | the sizes above and a completion `name:data` for a declared name: the summary's text before its first `:` is not an option name, so `PromptError` is raised | the option `name` with data `data` | not executed | LegacyPromptingFacts.AsWrittenChoiceReadsSummary | LegacyPrompting.Prompter.GetChoiceCorrected |

The as-written members of the findings are `Descriptions.ListDescriptionAsWritten`, `Prompting.Prompter.GetCompletionAsWritten`, `Prompting.Prompter.GetChoice`, `LegacyPrompting.Prompter.GetCompletionAsWritten` and `LegacyPrompting.Prompter.GetChoice`. The lemmas in the table exhibit the discrepancy for each of them.
