/** Server-sent events: whole `data` payloads out of text that arrives in arbitrary chunks. */
module Sse {
  import opened Wrappers
  import opened Collections
  import opened Names

  function StripReturns(line: string): string {
    if line != "" && line[|line|-1] == '\r' then StripReturns(line[..|line|-1]) else line
  }

  /** The payload of one line. Comments, blank lines and other fields have none. */
  function PayloadFromLine(line: string): Option<string> {
    var stripped := StripReturns(line);
    if stripped == "" || stripped[0] == ':' then None
    else if !("data:" <= stripped) then None
    else Some(StripLeft(stripped[5..]))
  }

  predicate AllReturns(s: string) { forall i :: 0 <= i < |s| ==> s[i] == '\r' }

  lemma {:induction false} StripsReturns(line: string, returns_: string)
    requires AllReturns(returns_) && (line != "" ==> line[|line|-1] != '\r')
    ensures StripReturns(line + returns_) == line
    decreases |returns_|
  {
    if returns_ == "" {
      assert line + returns_ == line;
    } else {
      var fewer := returns_[..|returns_|-1];
      StripsReturns(line, fewer);
      assert (line + returns_)[..|line + returns_|-1] == line + fewer;
    }
  }

  lemma {:induction false} StripsSpace(pad: string, body: string)
    requires (forall i :: 0 <= i < |pad| ==> IsSpace(pad[i])) && (body != "" ==> !IsSpace(body[0]))
    ensures StripLeft(pad + body) == body
    decreases |pad|
  {
    if pad == "" {
      assert pad + body == body;
    } else {
      StripsSpace(pad[1..], body);
      assert (pad + body)[1..] == pad[1..] + body;
    }
  }

  /** The payload of a data line: what follows the colon and any space, up to the returns at the end. */
  lemma DataLineIsItsPayload(pad: string, body: string, returns_: string)
    requires (forall i :: 0 <= i < |pad| ==> IsSpace(pad[i])) && body != "" && !IsSpace(body[0])
    requires body[|body|-1] != '\r' && AllReturns(returns_)
    ensures PayloadFromLine("data:" + pad + body + returns_) == Some(body)
  {
    var line := "data:" + pad + body;
    StripsReturns(line, returns_);
    assert line[5..] == pad + body && line[..5] == "data:";
    StripsSpace(pad, body);
  }

  lemma {:induction false} StripsFromTheEnd(line: string)
    ensures StripReturns(line) <= line
    decreases |line|
  {
    if line != "" && line[|line|-1] == '\r' {
      StripsFromTheEnd(line[..|line|-1]);
    }
  }

  /** No other line has one. */
  lemma OtherLinesHaveNone(line: string)
    requires !("data:" <= line)
    ensures PayloadFromLine(line) == None
  {
    StripsFromTheEnd(line);
  }

  function Listed(payload: Option<string>): seq<string> {
    if payload.Some? then [payload.value] else []
  }

  /** How far the first line goes; the length when it is not complete. */
  function LineEnd(text: string): (n: nat)
    ensures n <= |text| && '\n' !in text[..n]
    ensures n < |text| ==> text[n] == '\n'
  {
    if text == "" || text[0] == '\n' then 0
    else
      var n := 1 + LineEnd(text[1..]);
      assert text[..n] == [text[0]] + text[1..][..n-1];
      n
  }

  /** Payloads of the complete lines, and what is left of an incomplete one. */
  function Payloads(text: string): seq<string>
    decreases |text|
  {
    var n := LineEnd(text);
    if n == |text| then [] else Listed(PayloadFromLine(text[..n])) + Payloads(text[n+1..])
  }

  function Tail(text: string): string
    decreases |text|
  {
    var n := LineEnd(text);
    if n == |text| then text else Tail(text[n+1..])
  }

  /** One push of the whole text, then a flush. */
  function AllPayloads(text: string): seq<string> {
    Payloads(text) + Listed(PayloadFromLine(Tail(text)))
  }

  class SSEBuffer {
    var pending: string

    constructor ()
      ensures pending == ""
    {
      pending := "";
    }

    method Push(chunk: string) returns (payloads: seq<string>)
      modifies this
      ensures payloads == Payloads(old(pending) + chunk)
      ensures pending == Tail(old(pending) + chunk)
    {
      pending := pending + chunk;
      payloads := [];
      while LineEnd(pending) < |pending|
        invariant payloads + Payloads(pending) == Payloads(old(pending) + chunk)
        invariant Tail(pending) == Tail(old(pending) + chunk)
        decreases |pending|
      {
        hide PayloadFromLine, Payloads, Tail, LineEnd;
        var n := LineEnd(pending);
        PayloadsStep(pending, n);
        var payload := PayloadFromLine(pending[..n]);
        JoinTwice(payloads, Listed(payload), Payloads(pending[n+1..]));
        pending := pending[n+1..];
        if payload.Some? {
          payloads := payloads + [payload.value];
        } else {
          assert payloads + Listed(payload) == payloads;
        }
      }
    }

    /** A trailing payload, if the stream ended without a newline. */
    method Flush() returns (payloads: seq<string>)
      modifies this
      ensures payloads == Listed(PayloadFromLine(old(pending))) && pending == ""
    {
      if pending == "" {
        return [];
      }
      var payload := PayloadFromLine(pending);
      pending := "";
      payloads := Listed(payload);
    }
  }

  // ------------------------------------------------------------------ chunks do not matter

  lemma {:induction false} LineEndIsFirst(text: string, n: nat)
    requires n <= |text| && '\n' !in text[..n] && (n < |text| ==> text[n] == '\n')
    ensures LineEnd(text) == n
  {
    if n > 0 {
      assert text[0] == text[..n][0];
      assert text[1..][..n-1] == text[..n][1..];
      LineEndIsFirst(text[1..], n - 1);
    }
  }

  lemma {:induction false} TailHasNoLine(text: string)
    ensures LineEnd(Tail(text)) == |Tail(text)|
    decreases |text|
  {
    var n := LineEnd(text);
    if n < |text| {
      TailHasNoLine(text[n+1..]);
    }
  }

  lemma PayloadsStep(text: string, n: nat)
    requires n < |text| && n == LineEnd(text)
    ensures Payloads(text) == Listed(PayloadFromLine(text[..n])) + Payloads(text[n+1..])
    ensures Tail(text) == Tail(text[n+1..])
  {
  }

  /** Text that arrives in two pieces gives what it gives at once: the rest of the first piece waits for the second. */
  lemma {:induction false} SplitAnywhere(a: string, b: string)
    ensures Payloads(a + b) == Payloads(a) + Payloads(Tail(a) + b)
    ensures Tail(a + b) == Tail(Tail(a) + b)
    decreases |a|
  {
    var n := LineEnd(a);
    if n < |a| {
      hide PayloadFromLine, Listed, Payloads, Tail, LineEnd;
      var rest := a[n+1..];
      assert (a + b)[..n] == a[..n];
      LineEndIsFirst(a + b, n);
      assert (a + b)[n+1..] == rest + b;
      PayloadsStep(a, n);
      PayloadsStep(a + b, n);
      SplitAnywhere(rest, b);
      JoinTwice(Listed(PayloadFromLine(a[..n])), Payloads(rest), Payloads(Tail(rest) + b));
    } else {
      assert Payloads(a) == [] && Tail(a) == a;
      assert [] + Payloads(a + b) == Payloads(a + b);
    }
  }

  function Join(chunks: seq<string>): string {
    if chunks == [] then "" else chunks[0] + Join(chunks[1..])
  }

  /** What a buffer that holds `pending` gives for these chunks and a flush. */
  function Fed(pending: string, chunks: seq<string>): seq<string>
    decreases |chunks|
  {
    if chunks == [] then Listed(PayloadFromLine(pending))
    else Payloads(pending + chunks[0]) + Fed(Tail(pending + chunks[0]), chunks[1..])
  }

  lemma {:induction false} ChunkingDoesNotMatter(pending: string, chunks: seq<string>)
    requires LineEnd(pending) == |pending|
    ensures Fed(pending, chunks) == AllPayloads(pending + Join(chunks))
    decreases |chunks|
  {
    hide PayloadFromLine, Listed, LineEnd;
    if chunks == [] {
      assert pending + Join(chunks) == pending;
      assert Payloads(pending) == [] && Tail(pending) == pending;
      assert [] + Listed(PayloadFromLine(pending)) == Listed(PayloadFromLine(pending));
    } else {
      hide Payloads, Tail;
      var first, rest := pending + chunks[0], Join(chunks[1..]);
      var all := Tail(first) + rest;
      TailHasNoLine(first);
      ChunkingDoesNotMatter(Tail(first), chunks[1..]);
      SplitAnywhere(first, rest);
      JoinTwice(pending, chunks[0], rest);
      assert pending + Join(chunks) == first + rest;
      assert Fed(Tail(first), chunks[1..]) == Payloads(all) + Listed(PayloadFromLine(Tail(all)));
      JoinTwice(Payloads(first), Payloads(all), Listed(PayloadFromLine(Tail(all))));
    }
  }
}
