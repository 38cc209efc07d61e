/**
 * Lines 299-303 of `app.py`: before a reply is decoded, it is trimmed and, when
 * it opens with a Markdown code fence, its first and last lines are dropped.
 */
module Reply {
  import opened Text

  const Fence := "```"

  /** `lines[1:-1]`: all but the first and the last line. */
  function Inner(lines: seq<string>): seq<string>
  {
    if |lines| >= 2 then lines[1..|lines| - 1] else []
  }

  /** The text handed to `json.loads`. It never has surrounding whitespace. */
  function CleanReply(response: string): (cleaned: string)
    ensures Strip(cleaned) == cleaned
  {
    var trimmed := Strip(response);
    StripIdempotent(response);
    if Fence <= trimmed then
      var inner := Join(Inner(Split(trimmed, '\n')), '\n');
      StripIdempotent(inner);
      Strip(inner)
    else trimmed
  }

  /** A reply that does not open with a fence is only trimmed. */
  lemma Unfenced(response: string)
    requires !(Fence <= Strip(response))
    ensures CleanReply(response) == Strip(response)
  {
  }

  /** The reply `body` wrapped in a fence: an opening line "```tag", the body, a closing "```". */
  function Fenced(tag: string, body: string): string
  {
    Fence + tag + "\n" + body + "\n" + Fence
  }

  /** A fenced reply has no surrounding whitespace and opens with the fence. */
  lemma FencedTrimmed(tag: string, body: string)
    ensures Strip(Fenced(tag, body)) == Fenced(tag, body) && Fence <= Fenced(tag, body)
  {
    var f := Fenced(tag, body);
    var mid := tag + "\n" + body + "\n";
    assert f == Fence + mid + Fence;
    assert f[0] == Fence[0] && f[|f| - 1] == Fence[2];
    StripKeeps(f);
    assert f[..3] == Fence;
  }

  /** Dropping the first and last line of a fenced reply leaves the lines of the body. */
  lemma FencedInner(tag: string, body: string)
    requires '\n' !in tag
    ensures Inner(Split(Fenced(tag, body), '\n')) == Split(body, '\n')
  {
    var head := Fence + tag;
    assert '\n' !in head;
    assert Fenced(tag, body) == head + ['\n'] + (body + ['\n'] + Fence);
    FencedLines(head, body);
  }

  /**
   * Wrapping a reply in a code fence does not change what is decoded: the fenced
   * reply is cleaned to exactly what the bare body is cleaned to.
   */
  lemma FencedAsBare(tag: string, body: string)
    requires '\n' !in tag
    requires !(Fence <= Strip(body))
    ensures CleanReply(Fenced(tag, body)) == CleanReply(body)
  {
    var f := Fenced(tag, body);
    FencedTrimmed(tag, body);
    FencedInner(tag, body);
    JoinSplit(body, '\n');
    assert CleanReply(f) == Strip(body);
    Unfenced(body);
  }

  /** The closing fence is a line of its own. */
  lemma ClosingLine(body: string)
    ensures Split(body + ['\n'] + Fence, '\n') == Split(body, '\n') + [Fence]
  {
    SplitAt(body, '\n', Fence);
    SplitWithout(Fence, '\n');
  }

  /** The lines of a fenced reply: the opening line, the lines of the body, the closing fence. */
  lemma FencedLines(head: string, body: string)
    requires '\n' !in head
    ensures Split(head + ['\n'] + (body + ['\n'] + Fence), '\n') == [head] + Split(body, '\n') + [Fence]
  {
    var tail := body + ['\n'] + Fence;
    SplitAt(head, '\n', tail);
    SplitWithout(head, '\n');
    ClosingLine(body);
    var lines := Split(body, '\n');
    assert [head] + (lines + [Fence]) == [head] + lines + [Fence];
  }
}
