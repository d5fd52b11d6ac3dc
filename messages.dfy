/** The chat message record of `easy_prompting/_message.py`. The older
    `easy_prompt/message.py` declares the same record with the same role
    check, `to_dict` and `length`; both use this one definition (its own
    `__str__` lives in module LegacyMessage). */
module Messages {
  import opened Wrappers
  import opened Text
  import CoreUtils

  /** A message: its text and the role of its author. */
  datatype Message = Message(content: string, role: string)

  /** The roles the constructor accepts. */
  predicate IsRole(role: string) {
    role == "developer" || role == "user" || role == "assistant"
  }

  /** `Message(content, role)`: the constructor's assertion rejects every
      other role; otherwise both fields are stored as given. */
  function NewMessage(content: string, role: string): (r: Option<Message>)
    ensures r.Some? <==> IsRole(role)
    ensures r.Some? ==> r.value.content == content && r.value.role == role
  {
    if IsRole(role) then Some(Message(content, role)) else None
  }

  /** `to_dict()`: exactly the two keys `content` and `role`. */
  function ToDict(m: Message): (d: map<string, string>)
    ensures d.Keys == {"content", "role"}
    ensures d["content"] == m.content && d["role"] == m.role
  {
    map["content" := m.content, "role" := m.role]
  }

  /** Two messages with the same dictionary are the same message. */
  lemma ToDictInjective(a: Message, b: Message)
    requires ToDict(a) == ToDict(b)
    ensures a == b
  {
    assert a.content == ToDict(a)["content"] == ToDict(b)["content"] == b.content;
    assert a.role == ToDict(a)["role"] == ToDict(b)["role"] == b.role;
  }

  /** `__str__`: the upper-cased role, a colon, and the content with every
      line padded by `" | "`. */
  function Str(m: Message): (r: string)
    ensures |r| == |m.role| + 5 + |ReplaceNewlines(m.content, "\n | ")|
  {
    assert "\n" + " | " == "\n | ";
    Upper(m.role) + ":\n" + CoreUtils.PadText(m.content, " | ")
  }

  /** The first line of `__str__` is the role header; the following lines
      are the content's lines, each padded, one for one. */
  lemma StrLines(m: Message)
    requires '\n' !in m.role
    ensures Lines(Str(m)) == [Upper(m.role) + ":"] + Prefixed(" | ", Lines(m.content))
  {
    var head := Upper(m.role) + ":";
    assert '\n' !in head by {
      forall i | 0 <= i < |head| ensures head[i] != '\n' {
        if i < |m.role| {
          assert head[i] == Upper(m.role)[i];
        }
      }
    }
    assert Str(m) == head + "\n" + CoreUtils.PadText(m.content, " | ");
    LinesConcat(head, CoreUtils.PadText(m.content, " | "));
    LinesPlain(head);
    CoreUtils.PadTextLines(m.content, " | ");
  }

  /** `messages[-1].content`: the text of the last message of a history
      (`""` for the empty one, which neither prompter reads, because each
      has just added a message). */
  function LastContent(ms: seq<Message>): string {
    if ms == [] then "" else ms[|ms| - 1].content
  }

  /** `Message.length(messages)`: the total length of all contents, summed
      from the front. */
  function Length(ms: seq<Message>): (r: nat)
    ensures r == 0 <==> forall i :: 0 <= i < |ms| ==> ms[i].content == ""
  {
    if ms == [] then 0 else Length(ms[..|ms| - 1]) + |ms[|ms| - 1].content|
  }

  /** The total length is additive over list concatenation. */
  lemma {:induction false} LengthConcat(a: seq<Message>, b: seq<Message>)
    ensures Length(a + b) == Length(a) + Length(b)
    decreases |b|
  {
    if b != [] {
      var b' := b[..|b| - 1];
      assert (a + b)[..|a + b| - 1] == a + b';
      LengthConcat(a, b');
    } else {
      assert a + b == a;
    }
  }

  /** One message contributes the length of its content. */
  lemma LengthSingle(m: Message)
    ensures Length([m]) == |m.content|
  {
    assert [m][..0] == [];
  }

  // ---------------------------------------------------------------------------
  // `__repr__`
  // ---------------------------------------------------------------------------

  /** The escape `repr` writes for one character inside single quotes. */
  function Escaped(c: char): (r: string)
    ensures '\n' !in r && |r| >= 1
  {
    if c == '\\' then "\\\\"
    else if c == '\'' then "\\'"
    else if c == '\n' then "\\n"
    else [c]
  }

  /** Every character of `s`, escaped. */
  function EscapedAll(s: string): (r: string)
    ensures '\n' !in r
    ensures |r| >= |s|
  {
    if s == [] then "" else Escaped(s[0]) + EscapedAll(s[1..])
  }

  /** `repr(s)` for a string: single quotes around the escaped text. */
  function Quoted(s: string): (r: string)
    ensures '\n' !in r
  {
    "'" + EscapedAll(s) + "'"
  }

  const ReprHead: string := "Message(role="
  const ReprMiddle: string := ", content="

  /** `__repr__`: `Message(role=…, content=…)` with both fields quoted. */
  function Repr(m: Message): (r: string)
    ensures '\n' !in r
    ensures |r| >= |ReprHead| && r[..|ReprHead|] == ReprHead
  {
    ReprHead + Quoted(m.role) + ReprMiddle + Quoted(m.content) + ")"
  }

  /** A decoded piece of text and whatever followed it. */
  datatype Cut = Cut(text: string, rest: string)

  /** Reads the escaped body of a quoted string up to its closing quote,
      undoing the escapes. */
  function Unquoted(s: string): (r: Option<Cut>)
    ensures r.Some? ==> |r.value.rest| < |s|
    decreases |s|
  {
    if s == [] then None
    else if s[0] == '\'' then Some(Cut("", s[1..]))
    else if s[0] == '\\' then
      if |s| < 2 || !(s[1] == '\\' || s[1] == '\'' || s[1] == 'n') then None
      else
        var c := if s[1] == 'n' then '\n' else s[1];
        match Unquoted(s[2..])
        case None => None
        case Some(cut) => Some(Cut([c] + cut.text, cut.rest))
    else
      match Unquoted(s[1..])
      case None => None
      case Some(cut) => Some(Cut([s[0]] + cut.text, cut.rest))
  }

  /** Decoding undoes the escaping, and stops at the closing quote. */
  lemma {:induction false} UnquotedEscaped(s: string, rest: string)
    ensures Unquoted(EscapedAll(s) + "'" + rest) == Some(Cut(s, rest))
    decreases |s|
  {
    if s == [] {
      assert EscapedAll(s) + "'" + rest == "'" + rest;
    } else {
      var tail := EscapedAll(s[1..]) + "'" + rest;
      assert EscapedAll(s) + "'" + rest == Escaped(s[0]) + tail;
      UnquotedEscaped(s[1..], rest);
      var t := Escaped(s[0]) + tail;
      if s[0] == '\\' || s[0] == '\'' || s[0] == '\n' {
        assert t[2..] == tail;
      } else {
        assert t[1..] == tail;
      }
      assert [s[0]] + s[1..] == s;
    }
  }

  /** One parsed message and the text after it. */
  datatype Parsed = Parsed(message: Message, rest: string)

  /** Reads one `__repr__` from the front of `t`. */
  function ParseRepr(t: string): (r: Option<Parsed>)
    ensures r.Some? ==> |r.value.rest| < |t|
  {
    var n := |ReprHead| + 1;
    if |t| < n || t[..n] != ReprHead + "'" then None
    else
      match Unquoted(t[n..])
      case None => None
      case Some(role) =>
        var k := |ReprMiddle| + 1;
        if |role.rest| < k || role.rest[..k] != ReprMiddle + "'" then None
        else
          match Unquoted(role.rest[k..])
          case None => None
          case Some(content) =>
            if content.rest == [] || content.rest[0] != ')' then None
            else Some(Parsed(Message(content.text, role.text), content.rest[1..]))
  }

  /** The layout of a representation, regrouped the way it is read. */
  lemma ReprLayout(head: string, q: string, e1: string, mid: string, e2: string, close: string, rest: string)
    ensures head + (q + e1 + q) + mid + (q + e2 + q) + close + rest
         == (head + q) + (e1 + q + ((mid + q) + (e2 + q + (close + rest))))
  {
  }

  /** `__repr__` can be read back: it records both the role and the content. */
  lemma ParseReprOf(m: Message, rest: string)
    ensures ParseRepr(Repr(m) + rest) == Some(Parsed(m, rest))
  {
    var e1, e2 := EscapedAll(m.role), EscapedAll(m.content);
    var afterContent := ")" + rest;
    var afterRole := (ReprMiddle + "'") + (e2 + "'" + afterContent);
    var t := (ReprHead + "'") + (e1 + "'" + afterRole);
    ReprLayout(ReprHead, "'", e1, ReprMiddle, e2, ")", rest);
    assert Repr(m) + rest == t;
    assert t[..|ReprHead| + 1] == ReprHead + "'";
    assert t[|ReprHead| + 1..] == e1 + "'" + afterRole;
    UnquotedEscaped(m.role, afterRole);
    assert afterRole[..|ReprMiddle| + 1] == ReprMiddle + "'";
    assert afterRole[|ReprMiddle| + 1..] == e2 + "'" + afterContent;
    UnquotedEscaped(m.content, afterContent);
    assert afterContent[1..] == rest;
  }

  /** Different messages have different representations. */
  lemma ReprInjective(a: Message, b: Message)
    requires Repr(a) == Repr(b)
    ensures a == b
  {
    ParseReprOf(a, "");
    ParseReprOf(b, "");
    assert Repr(a) + "" == Repr(a);
    assert Repr(b) + "" == Repr(b);
  }
}
