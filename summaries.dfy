/** The summarisation policy both prompters share
    (`easy_prompting/_prompter.py` and `easy_prompt/prompter.py`, method
    `summarize`): walk the history adding up content lengths; at the first
    message where the running total reaches `include_size`, everything up
    to and including it is summarised and everything after it is kept. */
module Summaries {
  import opened Text
  import opened Messages

  /** The running total of content lengths up to and including message `i`. */
  function RunningTotal(ms: seq<Message>, i: nat): nat
    requires i < |ms|
  {
    Length(ms[..i + 1])
  }

  /** The messages the loop keeps when it has checked the running totals of
      the messages before `i` without reaching `include_size`. */
  function ExcludedFrom(ms: seq<Message>, includeSize: int, i: nat): (r: seq<Message>)
    requires i <= |ms|
    decreases |ms| - i
  {
    if i == |ms| then []
    else if RunningTotal(ms, i) >= includeSize then ms[i + 1..]
    else ExcludedFrom(ms, includeSize, i + 1)
  }

  /** The `excluded` list of `summarize`: the messages after the first one
      at which the running length reaches `include_size`, or none at all. */
  function Excluded(ms: seq<Message>, includeSize: int): seq<Message> {
    ExcludedFrom(ms, includeSize, 0)
  }

  /** Running totals only grow. */
  lemma PrefixLength(ms: seq<Message>, i: nat, j: nat)
    requires i <= j <= |ms|
    ensures Length(ms[..i]) <= Length(ms[..j])
  {
    LengthConcat(ms[..i], ms[i..j]);
    assert ms[..i] + ms[i..j] == ms[..j];
  }

  /** The loop stops at the first index whose running total reaches
      `include_size`, and keeps exactly the messages after it. */
  lemma {:induction false} ExcludedAtFirstReach(ms: seq<Message>, includeSize: int, i: nat, from: nat)
    requires from <= i < |ms|
    requires RunningTotal(ms, i) >= includeSize
    requires forall k :: from <= k < i ==> RunningTotal(ms, k) < includeSize
    ensures ExcludedFrom(ms, includeSize, from) == ms[i + 1..]
    decreases i - from
  {
    if from < i {
      ExcludedAtFirstReach(ms, includeSize, i, from + 1);
    }
  }

  /** When even the whole history stays below `include_size`, nothing is kept. */
  lemma {:induction false} ExcludedNeverReached(ms: seq<Message>, includeSize: int, from: nat)
    requires from <= |ms|
    requires Length(ms) < includeSize
    ensures ExcludedFrom(ms, includeSize, from) == []
    decreases |ms| - from
  {
    if from < |ms| {
      PrefixLength(ms, from + 1, |ms|);
      assert ms[..|ms|] == ms;
      ExcludedNeverReached(ms, includeSize, from + 1);
    }
  }

  /** The kept messages are a suffix of the history, in their original order
      and with their original content. When the history reached
      `include_size`, the dropped prefix carries at least `include_size`
      characters, and with a positive `include_size` it is not empty. */
  lemma {:induction false} ExcludedSuffix(ms: seq<Message>, includeSize: int, from: nat) returns (k: nat)
    requires from <= |ms|
    requires from == 0 || RunningTotal(ms, from - 1) < includeSize
    ensures k <= |ms| && ExcludedFrom(ms, includeSize, from) == ms[k..]
    ensures Length(ms) >= includeSize ==> Length(ms[..k]) >= includeSize
    ensures Length(ms) >= includeSize && includeSize > 0 ==> k >= 1
    decreases |ms| - from
  {
    if from == |ms| {
      k := |ms|;
      assert ms[..|ms|] == ms;
      if from > 0 {
        assert ms[..(from - 1) + 1] == ms;
      }
    } else if RunningTotal(ms, from) >= includeSize {
      k := from + 1;
    } else {
      k := ExcludedSuffix(ms, includeSize, from + 1);
    }
  }

  /** Summarising a history that reached `include_size` leaves at most the
      total minus `include_size` characters in the kept messages. */
  lemma ExcludedShrinks(ms: seq<Message>, includeSize: int)
    requires Length(ms) >= includeSize
    ensures Length(Excluded(ms, includeSize)) <= Length(ms) - includeSize
  {
    var k := ExcludedSuffix(ms, includeSize, 0);
    LengthConcat(ms[..k], ms[k..]);
    assert ms[..k] + ms[k..] == ms;
  }

  /** One message as the summariser sees it: its role, a colon and a line
      break, then its content. */
  function Turn(m: Message): string {
    m.role + ":\n" + m.content
  }

  /** The conversation handed to the summariser: every message as a turn,
      separated by blank lines. */
  function Conversation(ms: seq<Message>): string {
    Join(seq(|ms|, i requires 0 <= i < |ms| => Turn(ms[i])), "\n\n")
  }

  /** The summariser is shown every message of the history. */
  lemma ConversationShowsAll(ms: seq<Message>, i: nat)
    requires i < |ms|
    ensures Contains(Conversation(ms), Turn(ms[i]))
  {
    var turns := seq(|ms|, j requires 0 <= j < |ms| => Turn(ms[j]));
    JoinContainsPart(turns, "\n\n", i);
  }
}
