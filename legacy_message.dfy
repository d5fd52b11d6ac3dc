/** The one-line rendering `__str__` of the older message record in
    `easy_prompt/message.py`; the record itself, its role check, `to_dict`
    and `length` are those of module Messages. */
module LegacyMessage {
  import opened Text
  import opened Messages

  /** `__str__`: the role, a colon, then `" # "` in front of every line of
      the content. */
  function Str(m: Message): (r: string)
    ensures |r| >= |m.role| + 4
  {
    m.role + ":" + Concat(Prefixed(" # ", Lines(m.content)))
  }

  /** Prefixing every part and concatenating is the same as joining with the
      prefix after a first prefix. */
  lemma {:induction false} ConcatPrefixed(prefix: string, parts: seq<string>)
    requires |parts| >= 1
    ensures Concat(Prefixed(prefix, parts)) == prefix + Join(parts, prefix)
    decreases |parts|
  {
    if |parts| > 1 {
      ConcatPrefixed(prefix, parts[1..]);
      assert Prefixed(prefix, parts)[1..] == Prefixed(prefix, parts[1..]);
    } else {
      assert Prefixed(prefix, parts)[1..] == [];
    }
  }

  /** Replacing every newline by a newline-free text leaves no newline. */
  lemma {:induction false} ReplacedHasNoNewline(s: string, repl: string)
    requires '\n' !in repl
    ensures '\n' !in ReplaceNewlines(s, repl)
    decreases |s|
  {
    if s != [] {
      ReplacedHasNoNewline(s[1..], repl);
    }
  }

  /** `__str__` turns every newline of the content into `" # "`: the result
      is the role, `": # "`, and the content flattened onto one line. */
  lemma StrFlattens(m: Message)
    ensures Str(m) == m.role + ": # " + ReplaceNewlines(m.content, " # ")
  {
    ConcatPrefixed(" # ", Lines(m.content));
    JoinLines(m.content, " # ");
  }

  /** A message with a valid role renders without any line break. */
  lemma StrIsOneLine(m: Message)
    requires IsRole(m.role)
    ensures '\n' !in Str(m)
  {
    StrFlattens(m);
    ReplacedHasNoNewline(m.content, " # ");
  }
}
