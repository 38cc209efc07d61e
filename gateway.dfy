/**
 * `Agent.get_response_async` of `agent.py`: the user's message gets a block
 * describing the cart, then the language model is asked up to three times,
 * backing off 2 and then 4 seconds while it reports that it is overloaded.
 *
 * The model itself is not part of this model: `upstream(n)` is the scripted
 * outcome of the n-th call made for one request, either the output text with
 * the full transcript of the conversation, or the text of the exception raised.
 * Sleeping is recorded as the list of requested delays.
 */
module Gateway {
  import opened Wrappers
  import opened Text

  const MaxRetries: nat := 3
  const FirstDelay: nat := 2
  const OverloadedReply := "⚠️ The AI model is currently overloaded. Please try again in a moment."
  const UnreachableReply := "⚠️ Unable to connect to AI service. Please try again later."
  const CartHeader := "\n\nCurrent cart contents:\n"

  datatype Upstream = Ok(output: string, transcript: seq<string>) | Err(text: string)

  /** What a request ends with: a reply text, or the exception re-raised to the caller. */
  datatype Reply = Answer(text: string) | Raised(error: string)

  /** A request's reply, the transcript it leaves behind (if any) and how many calls it made. */
  datatype Exchange = Exchange(reply: Reply, transcript: Option<seq<string>>, calls: nat)

  /** Line 128: the error text names a 503 or, in any letter case, an overload. */
  predicate Overloaded(error: string)
  {
    Contains(error, "503") || Contains(Lower(error), "overloaded")
  }

  predicate IsOverload(u: Upstream)
  {
    u.Err? && Overloaded(u.text)
  }

  lemma {:induction false} ContainsInside(a: string, p: string, b: string)
    ensures Contains(a + p + b, p)
  {
    if a != [] {
      assert (a + p + b)[1..] == a[1..] + p + b;
      ContainsInside(a[1..], p, b);
    } else {
      assert p <= a + p + b;
    }
  }

  lemma LowerConcat(a: string, b: string)
    ensures Lower(a + b) == Lower(a) + Lower(b)
  {
  }

  /** Any error text that mentions "503", or "overloaded" in any letter case, counts as an overload. */
  lemma OverloadMarkers(a: string, b: string, marker: string)
    requires Lower(marker) == "overloaded"
    ensures Overloaded(a + "503" + b)
    ensures Overloaded(a + marker + b)
  {
    ContainsInside(a, "503", b);
    LowerConcat(a + marker, b);
    LowerConcat(a, marker);
    ContainsInside(Lower(a), "overloaded", Lower(b));
  }

  /** One line of the cart block: `"- key: quantity item(s)"`. */
  function Line(key: string, quantity: int): string
  {
    "- " + key + ": " + IntToString(quantity) + " item(s)\n"
  }

  /** The lines of the cart block, each entry rendered by `render`, in order. */
  function Lines(entries: seq<(string, int)>, render: (string, int) -> string): string
  {
    if entries == [] then ""
    else Lines(entries[..|entries| - 1], render) + render(entries[|entries| - 1].0, entries[|entries| - 1].1)
  }

  /** The cart block is the blocks of its parts, one after the other. */
  lemma {:induction false} LinesConcat(a: seq<(string, int)>, b: seq<(string, int)>, render: (string, int) -> string)
    ensures Lines(a + b, render) == Lines(a, render) + Lines(b, render)
  {
    if b == [] {
      assert a + b == a;
    } else {
      var n := |b| - 1;
      var ab := a + b;
      assert ab[..|ab| - 1] == a + b[..n];
      assert ab[|ab| - 1] == b[n];
      LinesConcat(a, b[..n], render);
    }
  }

  /** Each entry has its own line, in order: the lines before it, its line, then the lines after it. */
  lemma LinesAround(before: seq<(string, int)>, e: (string, int), after: seq<(string, int)>, render: (string, int) -> string)
    ensures Lines(before + [e] + after, render) == Lines(before, render) + render(e.0, e.1) + Lines(after, render)
  {
    var upTo := before + [e];
    assert upTo[..|upTo| - 1] == before;
    LinesConcat(upTo, after, render);
  }

  /**
   * Lines 98-108: the message sent upstream. The cart block is appended exactly
   * when there is a non-empty cart; otherwise the message goes unchanged.
   */
  function Enhance(message: string, context: Option<seq<(string, int)>>): (enhanced: string)
    ensures message <= enhanced
    ensures enhanced == message <==> context.None? || context.value == []
  {
    if context.Some? && context.value != [] then message + CartHeader + Lines(context.value, Line) else message
  }

  /** Lines 98-108 as written: the block is built line by line. */
  method BuildMessage(message: string, context: Option<seq<(string, int)>>) returns (enhanced: string)
    ensures enhanced == Enhance(message, context)
  {
    if context.Some? && context.value != [] {
      var entries := context.value;
      var info := CartHeader;
      if entries == [] {
        // Line 101 ("Cart is empty") cannot be reached: the outer test already excludes an empty cart.
        assert false;
      } else {
        for i := 0 to |entries|
          invariant info == CartHeader + Lines(entries[..i], Line)
        {
          var done := entries[..i + 1];
          assert done[..i] == entries[..i] && done[i] == entries[i];
          info := info + Line(entries[i].0, entries[i].1);
        }
        assert entries[..|entries|] == entries;
      }
      enhanced := message + info;
    } else {
      enhanced := message;
    }
  }

  /**
   * The retry policy from attempt `attempt` on. The calls before the last one all
   * failed with an overload; the last one either answered, failed for another
   * reason, or was the third overload in a row.
   */
  function Retry(upstream: nat -> Upstream, attempt: nat): (x: Exchange)
    requires attempt < MaxRetries
    decreases MaxRetries - attempt
    ensures attempt < x.calls <= MaxRetries
    ensures forall k :: attempt <= k < x.calls - 1 ==> IsOverload(upstream(k))
    ensures upstream(x.calls - 1).Ok?
            ==> x.reply == Answer(upstream(x.calls - 1).output) && x.transcript == Some(upstream(x.calls - 1).transcript)
    ensures upstream(x.calls - 1).Err? ==> x.transcript == None
    ensures IsOverload(upstream(x.calls - 1)) ==> x.calls == MaxRetries && x.reply == Answer(OverloadedReply)
    ensures upstream(x.calls - 1).Err? && !IsOverload(upstream(x.calls - 1))
            ==> x.reply == Raised(upstream(x.calls - 1).text)
  {
    match upstream(attempt)
    case Ok(output, transcript) => Exchange(Answer(output), Some(transcript), attempt + 1)
    case Err(error) =>
      if !Overloaded(error) then Exchange(Raised(error), None, attempt + 1)
      else if attempt < MaxRetries - 1 then Retry(upstream, attempt + 1)
      else Exchange(Answer(OverloadedReply), None, attempt + 1)
  }

  /** Three overloads in a row end in the fixed apology, with no exception and no transcript. */
  lemma ThreeOverloads(upstream: nat -> Upstream)
    requires forall k :: 0 <= k < MaxRetries ==> IsOverload(upstream(k))
    ensures Retry(upstream, 0) == Exchange(Answer(OverloadedReply), None, MaxRetries)
  {
    var x := Retry(upstream, 0);
    assert IsOverload(upstream(x.calls - 1));
  }

  /** Any other failure ends the request on the spot: one call, the error re-raised. */
  lemma FatalFirst(upstream: nat -> Upstream)
    requires upstream(0).Err? && !Overloaded(upstream(0).text)
    ensures Retry(upstream, 0) == Exchange(Raised(upstream(0).text), None, 1)
  {
  }

  class Agent {
    /** `self.message_history`: the transcript of the conversation so far. */
    var history: seq<string>

    constructor ()
      ensures history == []
    {
      history := [];
    }

    /**
     * Lines 95-140. `sent` is the message given to the model, `calls` the number
     * of calls made and `sleeps` the delays waited between them.
     */
    method GetResponse(userMessage: string, context: Option<seq<(string, int)>>, upstream: nat -> Upstream)
      returns (reply: Reply, sent: string, calls: nat, sleeps: seq<nat>)
      modifies this
      ensures sent == Enhance(userMessage, context)
      ensures var x := Retry(upstream, 0);
              && reply == x.reply && calls == x.calls
              && history == (if x.transcript.Some? then x.transcript.value else old(history))
      ensures sleeps == [2, 4][..calls - 1]
    {
      sent := BuildMessage(userMessage, context);
      var delay: nat := FirstDelay;
      sleeps := [];
      for attempt := 0 to MaxRetries
        invariant attempt < MaxRetries
        invariant sleeps == [2, 4][..attempt] && delay == [2, 4, 8][attempt]
        invariant history == old(history)
        invariant Retry(upstream, attempt) == Retry(upstream, 0)
      {
        match upstream(attempt)
        case Ok(output, transcript) =>
          history := transcript;
          return Answer(output), sent, attempt + 1, sleeps;
        case Err(error) =>
          if Overloaded(error) {
            if attempt < MaxRetries - 1 {
              sleeps := sleeps + [delay];
              delay := delay * 2;
            } else {
              return Answer(OverloadedReply), sent, attempt + 1, sleeps;
            }
          } else {
            return Raised(error), sent, attempt + 1, sleeps;
          }
      }
      // Line 140 cannot be reached: the third attempt always returns or raises.
      assert false;
      reply, calls := Answer(UnreachableReply), MaxRetries;
    }
  }
}
