/** The text `easy_prompting/_prompter.py` hashes to name a cached
    completion: the `repr` of every message of the history, joined by blank
    lines. The history can be read back from it, so two different
    histories never share a cache entry unless their hashes collide. */
module CacheKeys {
  import opened Wrappers
  import opened Text
  import opened Messages

  /** The `repr` of every message, in order. */
  function Reprs(ms: seq<Message>): (r: seq<string>)
    ensures |r| == |ms|
    ensures forall i :: 0 <= i < |ms| ==> r[i] == Repr(ms[i])
  {
    seq(|ms|, i requires 0 <= i < |ms| => Repr(ms[i]))
  }

  /** `"\n\n".join(repr(message) for message in messages)`. */
  function CacheKey(ms: seq<Message>): string {
    Join(Reprs(ms), "\n\n")
  }

  /** Reads a non-empty key back into its messages. */
  function ParseReprs(t: string): (r: Option<seq<Message>>)
    decreases |t|
  {
    match ParseRepr(t)
    case None => None
    case Some(p) =>
      if p.rest == [] then Some([p.message])
      else if |p.rest| < 2 || p.rest[..2] != "\n\n" then None
      else
        match ParseReprs(p.rest[2..])
        case None => None
        case Some(more) => Some([p.message] + more)
  }

  /** Reads a key back into the history it was made from. */
  function ParseKey(t: string): (r: Option<seq<Message>>) {
    if t == [] then Some([]) else ParseReprs(t)
  }

  /** A non-empty history is read back from its key. */
  lemma {:induction false} ParseReprsOf(ms: seq<Message>)
    requires |ms| >= 1
    ensures ParseReprs(CacheKey(ms)) == Some(ms)
    decreases |ms|
  {
    var rs := Reprs(ms);
    if |ms| == 1 {
      assert CacheKey(ms) == rs[0] == Repr(ms[0]) + "";
      ParseReprOf(ms[0], "");
      assert ms == [ms[0]];
    } else {
      var more := CacheKey(ms[1..]);
      assert rs[1..] == Reprs(ms[1..]);
      assert CacheKey(ms) == Repr(ms[0]) + ("\n\n" + more);
      ParseReprOf(ms[0], "\n\n" + more);
      var rest := "\n\n" + more;
      assert rest[..2] == "\n\n" && rest[2..] == more;
      ParseReprsOf(ms[1..]);
      assert [ms[0]] + ms[1..] == ms;
    }
  }

  /** Every history, the empty one included, is read back from its key. */
  lemma ParseKeyOf(ms: seq<Message>)
    ensures ParseKey(CacheKey(ms)) == Some(ms)
  {
    if ms != [] {
      ParseReprsOf(ms);
      KeyNotEmpty(ms);
    }
  }

  /** The key of a non-empty history is not empty: it starts with the
      first message's `repr`. */
  lemma KeyNotEmpty(ms: seq<Message>)
    requires ms != []
    ensures CacheKey(ms) != []
  {
    var rs := Reprs(ms);
    assert |rs[0]| >= 1;
    assert |Join(rs, "\n\n")| >= |rs[0]|;
  }

  /** Different histories give different keys: the key depends on every
      role and every content, in order. */
  lemma CacheKeyInjective(a: seq<Message>, b: seq<Message>)
    requires CacheKey(a) == CacheKey(b)
    ensures a == b
  {
    ParseKeyOf(a);
    ParseKeyOf(b);
  }
}
