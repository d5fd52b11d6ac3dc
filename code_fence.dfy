/** The regular-expression search both `extract_code` copies perform:
    `re.search(r'```(?:[a-zA-Z]*\n)?(.*)```', code, re.DOTALL)`.
    Rather than a backtracking engine, the match is given directly: the
    leftmost opening fence, an optional run of ASCII letters ended by a
    newline, and a greedy body that runs to the LAST fence of the text. */
module CodeFence {
  import opened Wrappers
  import opened Text

  /** The fence the pattern looks for. */
  const Fence: string := "```"

  /** The number of consecutive ASCII letters of `code` from index `i`. */
  function LetterRun(code: string, i: nat): (n: nat)
    requires i <= |code|
    ensures i + n <= |code|
    ensures forall k :: i <= k < i + n ==> IsAsciiLetter(code[k])
    ensures i + n == |code| || !IsAsciiLetter(code[i + n])
    decreases |code| - i
  {
    if i < |code| && IsAsciiLetter(code[i]) then 1 + LetterRun(code, i + 1) else 0
  }

  /** Where the captured body starts when the opening fence ends at `i`:
      the optional group `(?:[a-zA-Z]*\n)?` is taken exactly when the
      letters after the fence are followed by a newline. */
  function BodyStart(code: string, i: nat): (q: nat)
    requires i <= |code|
    ensures i <= q <= |code|
    ensures forall k :: i <= k < q ==> IsAsciiLetter(code[k]) || code[k] == '\n'
  {
    var n := LetterRun(code, i);
    if i + n < |code| && code[i + n] == '\n' then i + n + 1 else i
  }

  /** A backtick is neither a letter nor a newline, so no fence starts
      inside the optional tag. */
  lemma NoFenceInTag(code: string, i: nat)
    requires i <= |code|
    ensures forall r: nat :: i <= r < BodyStart(code, i) ==> !OccursAt(code, Fence, r)
  {
    forall r: nat | i <= r < BodyStart(code, i)
      ensures !OccursAt(code, Fence, r)
    {
      assert IsAsciiLetter(code[r]) || code[r] == '\n';
      if r + 3 <= |code| {
        assert code[r..r + 3][0] == code[r] != '`';
      }
    }
  }

  /** The bounds `(q, r)` of the captured group `(.*)`, or `None` when the
      pattern does not match: it matches exactly when some fence starts at
      least three characters after some other fence starts; the group then
      runs from the end of the optional tag after the FIRST fence up to the
      LAST fence of the text. */
  function FenceSpan(code: string): (r: Option<(nat, nat)>)
    ensures r.None? <==>
      forall i: nat, j: nat :: OccursAt(code, Fence, i) && OccursAt(code, Fence, j) ==> j < i + 3
    ensures r.Some? ==> r.value.0 <= r.value.1 <= |code| && OccursAt(code, Fence, r.value.1)
    ensures r.Some? ==> forall j: nat :: r.value.1 < j ==> !OccursAt(code, Fence, j)
    ensures r.Some? ==> exists p: nat :: (OccursAt(code, Fence, p)
      && (forall j: nat :: j < p ==> !OccursAt(code, Fence, j))
      && r.value.0 == BodyStart(code, p + 3))
  {
    match IndexOf(code, Fence)
    case None => None
    case Some(p) =>
      var q := BodyStart(code, p + 3);
      match LastIndexOf(code, Fence)
      case None => None
      case Some(last) =>
        if p + 3 <= last then
          NoFenceInTag(code, p + 3);
          Some((q, last))
        else None
  }

  /** `match.group(1)` of the search, or `None` when nothing matches. */
  function FencedBody(code: string): (r: Option<string>)
    ensures r.None? <==> FenceSpan(code).None?
    ensures r.Some? ==> r.value == code[FenceSpan(code).value.0..FenceSpan(code).value.1]
  {
    match FenceSpan(code)
    case None => None
    case Some((q, last)) => Some(code[q..last])
  }

  /** Text delimited as "```" + tag + "\n" + body + "\n```" with a
      letters-only tag is matched with the body plus its final newline as
      the group, whatever the body contains. */
  lemma {:induction false} FencedBodyOfBlock(body: string, tag: string)
    requires forall k :: 0 <= k < |tag| ==> IsAsciiLetter(tag[k])
    ensures FencedBody(Fence + tag + "\n" + body + "\n" + Fence) == Some(body + "\n")
  {
    var code := Fence + tag + "\n" + body + "\n" + Fence;
    var n := |code|;
    assert OccursAt(code, Fence, 0) by { assert code[0..3] == Fence; }
    assert OccursAt(code, Fence, n - 3) by { assert code[n - 3..n] == Fence; }
    assert IndexOf(code, Fence) == Some(0);
    assert LastIndexOf(code, Fence) == Some(n - 3);
    LetterRunOfTag(code, tag);
    assert code[3 + |tag|] == '\n';
    assert BodyStart(code, 3) == 4 + |tag|;
    assert code[4 + |tag|..n - 3] == body + "\n";
  }

  /** The letters right after the opening fence are exactly the tag. */
  lemma LetterRunOfTag(code: string, tag: string)
    requires |code| > 3 + |tag|
    requires code[..3 + |tag|] == Fence + tag && code[3 + |tag|] == '\n'
    requires forall k :: 0 <= k < |tag| ==> IsAsciiLetter(tag[k])
    ensures LetterRun(code, 3) == |tag|
  {
    forall k | 3 <= k < 3 + |tag| ensures IsAsciiLetter(code[k]) {
      assert code[k] == (Fence + tag)[k] == tag[k - 3];
    }
    LetterRunExact(code, 3, |tag|);
  }

  /** A run of exactly `m` letters ended by a non-letter. */
  lemma {:induction false} LetterRunExact(code: string, i: nat, m: nat)
    requires i + m < |code|
    requires forall k :: i <= k < i + m ==> IsAsciiLetter(code[k])
    requires !IsAsciiLetter(code[i + m])
    ensures LetterRun(code, i) == m
    decreases m
  {
    if m > 0 {
      LetterRunExact(code, i + 1, m - 1);
    }
  }
}
