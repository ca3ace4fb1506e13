/** Reading a response body with a cap on its decoded size. */
module Bounded {
  import opened Wrappers

  type Bytes = seq<bv8>

  datatype BodyError = TooLarge | Unreadable

  /**
   What a decompressor makes of the input so far: all the output it is good for, or nothing when it is corrupt.
   `rejects` says that the very header is wrong, which is found before anything comes out.
   */
  datatype Codec = Codec(decode: Bytes -> Option<Bytes>, rejects: Bytes -> bool)

  /** More input never takes output back, and what is corrupt stays corrupt. */
  ghost predicate Streams(c: Codec) {
    && c.decode([]) == Some([])
    && (forall a: Bytes, b: Bytes :: a <= b && c.decode(b).Some? ==>
          c.decode(a).Some? && c.decode(a).value <= c.decode(b).value)
    && (forall a: Bytes :: c.rejects(a) ==> c.decode(a).None?)
  }

  /** A decompressor with an output limit, as zlib offers it. A limit of 0 would mean none. */
  class Decompressor {
    const codec: Codec
    var given: Bytes
    var emitted: nat

    constructor (codec: Codec)
      requires Streams(codec)
      ensures this.codec == codec && Valid() && given == [] && Emitted() == []
    {
      this.codec := codec;
      given, emitted := [], 0;
    }

    ghost predicate Valid()
      reads this
    {
      Streams(codec) && codec.decode(given).Some? && emitted <= |codec.decode(given).value|
    }

    ghost function Emitted(): Bytes
      requires Valid()
      reads this
    {
      codec.decode(given).value[..emitted]
    }

    /** May take this much and give out that much. */
    predicate Can(data: Bytes, limit: nat, taken: nat, given_: nat)
      reads this
    {
      && taken <= |data| && given_ <= limit && (taken > 0 || given_ > 0)
      && codec.decode(given + data[..taken]).Some?
      && emitted + given_ <= |codec.decode(given + data[..taken]).value|
    }

    /** Some output within the limit, and the input that was not taken. None when the input is found corrupt. */
    method Decompress(data: Bytes, limit: nat) returns (r: Option<(Bytes, Bytes)>)
      requires Valid() && limit >= 1 && data != []
      modifies this`given, this`emitted
      ensures Valid()
      ensures r.None? ==> given == old(given) && emitted == old(emitted) && codec.decode(given + data).None?
      ensures codec.rejects(old(given) + data) ==> r.None?
      ensures r.Some? ==>
                var (out, tail) := r.value;
                && |out| <= limit && |tail| <= |data| && (out != [] || |tail| < |data|)
                && given + tail == old(given) + data
                && Emitted() == old(Emitted()) + out
    {
      var corrupt := codec.decode(given + data).None?;
      var notices: bool := *;
      if corrupt && (notices || codec.rejects(given + data)) {
        return None;
      }
      var taken: nat, n: nat := *, *;
      if !Can(data, limit, taken, n) {
        if corrupt {
          return None;
        }
        assert given <= given + data && data[..|data|] == data;
        taken := |data|;
        var left := |codec.decode(given + data).value| - emitted;
        n := if left < limit then left else limit;
      }
      assert given <= given + data[..taken];
      var all := codec.decode(given + data[..taken]).value;
      var out := all[emitted..emitted + n];
      assert all[..emitted + n] == all[..emitted] + out;
      assert given + data[..taken] + data[taken..] == given + data;
      given, emitted := given + data[..taken], emitted + n;
      return Some((out, data[taken..]));
    }

    /** Whatever is still to come out, however much it is. */
    method Flush() returns (out: Bytes)
      requires Valid()
      modifies this`emitted
      ensures Valid() && old(Emitted()) + out == codec.decode(given).value
    {
      var all := codec.decode(given).value;
      out := all[emitted..];
      emitted := |all|;
    }
  }

  /** Some servers send raw deflate without the zlib header; that shows on the first input or not at all. */
  class Inflater {
    const wrapped: Codec
    const raw: Codec
    ghost const cap: nat
    var rawFallback: bool
    var started: bool
    var obj: Decompressor

    constructor (wrapped: Codec, raw: Codec, deflate: bool, ghost cap: nat)
      requires Streams(wrapped) && Streams(raw)
      ensures Valid() && fresh(obj) && this.cap == cap && obj.Emitted() == []
      ensures this.wrapped == wrapped && this.raw == raw
      ensures !started && rawFallback == deflate && obj.codec == wrapped
    {
      this.wrapped, this.raw, this.cap, rawFallback, started := wrapped, raw, cap, deflate, false;
      obj := new Decompressor(wrapped);
    }

    ghost predicate Valid()
      reads this, obj
    {
      obj.Valid() && Streams(raw) && (!started ==> obj.given == [] && obj.emitted == 0)
    }

    /** No caller may ask for more than takes the output one byte past the cap, or for output without a limit. */
    method Feed(data: Bytes, limit: nat) returns (r: Result<(Bytes, Bytes), BodyError>)
      requires Valid() && data != []
      requires limit >= 1 && |obj.Emitted()| + limit <= cap + 1
      modifies this, obj
      ensures Valid() && (obj == old(obj) || fresh(obj)) && |obj.Emitted()| <= cap + 1
      ensures obj == old(obj) ==> rawFallback == old(rawFallback)
      ensures obj != old(obj) ==> obj.codec == raw && old(!started && rawFallback) && old(obj.codec).decode(data).None?
      ensures r.Success? ==> started
      ensures r.Success? && old(!started) && old(obj.codec).rejects(data) ==> obj != old(obj)
      ensures r.Failure? ==> obj.codec.decode(old(obj.given) + data).None? && r.error.Unreadable?
      ensures r.Failure? && old(!started && rawFallback) ==> obj.codec == raw
      ensures r.Success? ==>
                var (out, tail) := r.value;
                && |out| <= limit && |tail| <= |data| && (out != [] || |tail| < |data|)
                && obj.given + tail == old(obj.given) + data
                && obj.Emitted() == old(obj.Emitted()) + out
    {
      assert !started ==> obj.given + data == data;
      var out := obj.Decompress(data, limit);
      if out.None? && rawFallback && !started {
        rawFallback := false;
        obj := new Decompressor(raw);
        assert obj.given + data == data;
        out := obj.Decompress(data, limit);
      }
      if out.None? {
        return Failure(Unreadable);
      }
      started := true;
      return Success(out.value);
    }

    method Finish(limit: int) returns (r: Result<Bytes, BodyError>)
      requires Valid()
      modifies obj
      ensures Valid()
      ensures var rest := old(obj.Emitted()); var all := obj.codec.decode(obj.given).value;
              rest <= all && r == if |all| - |rest| > limit then Failure(TooLarge) else Success(all[|rest|..])
      ensures obj.given == old(obj.given)
    {
      var out := obj.Flush();
      if |out| > limit {
        return Failure(TooLarge);
      }
      return Success(out);
    }
  }

  // ------------------------------------------------------------------ the body

  function Joined(chunks: seq<Bytes>): Bytes {
    if chunks == [] then [] else chunks[0] + Joined(chunks[1..])
  }

  /** The first input a decompressor gets to see. */
  function FirstData(chunks: seq<Bytes>): Bytes {
    if chunks == [] then [] else if chunks[0] != [] then chunks[0] else FirstData(chunks[1..])
  }

  /** The codings of the header, `identity` aside. The parts are stripped and lower case. */
  function Codings(parts: seq<string>): seq<string> {
    if parts == [] then []
    else (if parts[0] == "" || parts[0] == "identity" then [] else [parts[0]]) + Codings(parts[1..])
  }

  /** A part of the header that names a coding. */
  predicate NamesCoding(part: string) { part != "" && part != "identity" }

  predicate NoneNamed(parts: seq<string>) { forall i :: 0 <= i < |parts| ==> !NamesCoding(parts[i]) }

  predicate OnlyNamed(parts: seq<string>, i: nat, coding: string) {
    && i < |parts| && NamesCoding(parts[i]) && parts[i] == coding
    && forall k :: 0 <= k < |parts| && k != i ==> !NamesCoding(parts[k])
  }

  predicate TwoNamed(parts: seq<string>, i: nat, k: nat) {
    i < k < |parts| && NamesCoding(parts[i]) && NamesCoding(parts[k])
  }

  /** None is named, or one alone, or two at least. */
  lemma {:induction false} CodingsAreNamed(parts: seq<string>) returns (i: nat, k: nat)
    ensures |Codings(parts)| == 0 ==> NoneNamed(parts)
    ensures |Codings(parts)| == 1 ==> OnlyNamed(parts, i, Codings(parts)[0])
    ensures |Codings(parts)| > 1 ==> TwoNamed(parts, i, k)
  {
    i, k := 0, 0;
    if parts != [] {
      hide NamesCoding, Codings, NoneNamed, OnlyNamed, TwoNamed;
      var rest := parts[1..];
      var a, b := CodingsAreNamed(rest);
      if NamesCoding(parts[0]) {
        ACoding(parts);
        i, k := 0, a + 1;
      } else {
        NotACoding(parts);
        i, k := a + 1, b + 1;
      }
      if |Codings(rest)| == 0 {
        NoneLater(parts);
      } else if |Codings(rest)| == 1 {
        OneLater(parts, a, Codings(rest)[0]);
      } else {
        TwoLater(parts, a, b);
      }
    }
  }

  lemma NoneLater(parts: seq<string>)
    requires parts != [] && NoneNamed(parts[1..])
    ensures if NamesCoding(parts[0]) then OnlyNamed(parts, 0, parts[0]) else NoneNamed(parts)
  {
    forall k | 1 <= k < |parts| ensures !NamesCoding(parts[k]) {
      assert parts[1..][k-1] == parts[k];
    }
  }

  lemma OneLater(parts: seq<string>, a: nat, coding: string)
    requires parts != [] && OnlyNamed(parts[1..], a, coding)
    ensures if NamesCoding(parts[0]) then TwoNamed(parts, 0, a + 1) else OnlyNamed(parts, a + 1, coding)
  {
    forall k | 1 <= k < |parts| && k != a + 1 ensures !NamesCoding(parts[k]) {
      assert parts[1..][k-1] == parts[k];
    }
  }

  lemma TwoLater(parts: seq<string>, a: nat, b: nat)
    requires parts != [] && TwoNamed(parts[1..], a, b)
    ensures TwoNamed(parts, a + 1, b + 1) && (NamesCoding(parts[0]) ==> TwoNamed(parts, 0, a + 1))
  {
  }

  lemma NotACoding(parts: seq<string>)
    requires parts != [] && !NamesCoding(parts[0])
    ensures Codings(parts) == Codings(parts[1..])
  {
  }

  lemma ACoding(parts: seq<string>)
    requires parts != [] && NamesCoding(parts[0])
    ensures Codings(parts) == [parts[0]] + Codings(parts[1..])
  {
  }

  /** What a body of this decoding is worth under the cap. */
  function Capped(body: Bytes, maxBytes: nat): Result<Bytes, BodyError> {
    if |body| <= maxBytes then Success(body) else Failure(TooLarge)
  }

  /** The decoder in use is the wrapped one, or the raw one after the first input was no header. */
  ghost predicate Chosen(used: Codec, wrapped: Codec, raw: Codec, deflate: bool, first: Bytes) {
    && (used == wrapped || (deflate && used == raw && wrapped.decode(first).None?))
    && (deflate && first != [] && wrapped.rejects(first) ==> used == raw)
  }

  /** The decoder so far, before and after it was settled. */
  ghost predicate Settled(inflater: Inflater, deflate: bool, first: Bytes)
    reads inflater, inflater.obj
  {
    if inflater.started then Chosen(inflater.obj.codec, inflater.wrapped, inflater.raw, deflate, first)
    else inflater.obj.codec == inflater.wrapped && inflater.rawFallback == deflate
  }

  /** One network chunk, a limited piece at a time. */
  method FeedChunk(inflater: Inflater, chunk: Bytes, body: Bytes, maxBytes: nat, deflate: bool, ghost first: Bytes)
    returns (r: Result<Bytes, BodyError>)
    requires inflater.cap == maxBytes
    requires inflater.Valid() && inflater.obj.Emitted() == body && |body| <= maxBytes
    requires Settled(inflater, deflate, first) && (!inflater.started && chunk != [] ==> chunk == first)
    modifies inflater, inflater.obj
    ensures inflater.Valid() && (inflater.obj == old(inflater.obj) || fresh(inflater.obj))
    ensures |inflater.obj.Emitted()| <= maxBytes + 1
    ensures r.Success? ==>
              && inflater.obj.Emitted() == r.value && |r.value| <= maxBytes
              && inflater.obj.given == old(inflater.obj.given) + chunk
              && inflater.started == (old(inflater.started) || chunk != [])
              && Settled(inflater, deflate, first)
    ensures r.Failure? ==>
              && Chosen(inflater.obj.codec, inflater.wrapped, inflater.raw, deflate, first)
              && var all := inflater.obj.codec.decode(old(inflater.obj.given) + chunk);
                 if r.error.Unreadable? then all.None? else all.Some? ==> |all.value| > maxBytes
  {
    var data, total, soFar := chunk, |body|, body;
    ghost var input := inflater.obj.given + chunk;
    while data != []
      invariant inflater.Valid() && (inflater.obj == old(inflater.obj) || fresh(inflater.obj))
      invariant inflater.obj.Emitted() == soFar && total == |soFar| <= maxBytes
      invariant inflater.obj.given + data == input
      invariant Settled(inflater, deflate, first)
      invariant if inflater.started then old(inflater.started) || chunk != []
                else data == chunk && !old(inflater.started)
      decreases |data|, maxBytes - total
    {
      var fed := inflater.Feed(data, maxBytes - total + 1);
      if fed.Failure? {
        return Failure(fed.error);
      }
      var (out, tail) := fed.value;
      soFar := soFar + out;
      total := total + |out|;
      if total > maxBytes {
        assert inflater.obj.given <= input;
        return Failure(TooLarge);
      }
      data := tail;
    }
    r := Success(soFar);
  }

  /** The right answer for a body with one coding, whichever decoder its first input chose. */
  ghost predicate Answers(r: Result<Bytes, BodyError>, chunks: seq<Bytes>, wrapped: Codec, raw: Codec, deflate: bool,
                          maxBytes: nat) {
    exists used :: Chosen(used, wrapped, raw, deflate, FirstData(chunks)) && Decodes(r, used, Joined(chunks), maxBytes)
  }

  predicate Decodes(r: Result<Bytes, BodyError>, used: Codec, input: Bytes, maxBytes: nat) {
    var all := used.decode(input);
    if all.Some? then r == Capped(all.value, maxBytes) else r.Failure?
  }

  /**
   The whole body, or an error. No coding: the bytes themselves. One coding: what its decoder makes of all the input,
   if that fits, whatever the chunks.
   */
  method ReadBounded(chunks: seq<Bytes>, parts: seq<string>, codec: string -> Codec, raw: Codec, maxBytes: nat)
    returns (r: Result<Bytes, BodyError>)
    requires Streams(raw) && forall name :: Streams(codec(name))
    ensures NoneNamed(parts) ==>
              r == if |Joined(chunks)| <= maxBytes then Success(Joined(chunks)) else Failure(TooLarge)
    ensures (exists i: nat, k: nat :: TwoNamed(parts, i, k)) ==> r == Failure(Unreadable)
    ensures forall i: nat :: i < |parts| && OnlyNamed(parts, i, parts[i]) ==>
              if parts[i] !in {"gzip", "x-gzip", "deflate"} then r == Failure(Unreadable)
              else Answers(r, chunks, codec(parts[i]), raw, parts[i] == "deflate", maxBytes)
    ensures r.Success? ==> |r.value| <= maxBytes
  {
    ghost var one, other := CodingsAreNamed(parts);
    var codings := Codings(parts);
    if codings == [] {
      r := ReadPlain(chunks, maxBytes);
      return;
    }
    if |codings| > 1 || codings[0] !in {"gzip", "x-gzip", "deflate"} {
      return Failure(Unreadable);
    }
    r := ReadInflated(chunks, codec(codings[0]), raw, codings[0] == "deflate", maxBytes);
  }

  method ReadPlain(chunks: seq<Bytes>, maxBytes: nat) returns (r: Result<Bytes, BodyError>)
    ensures r == Capped(Joined(chunks), maxBytes)
  {
    var body: Bytes := [];
    for i := 0 to |chunks|
      invariant |body| <= maxBytes && Joined(chunks) == body + Joined(chunks[i..])
    {
      assert chunks[i..][1..] == chunks[i+1..];
      if |body| + |chunks[i]| > maxBytes {
        return Failure(TooLarge);
      }
      body := body + chunks[i];
    }
    assert body + [] == body;
    return Success(body);
  }

  method ReadInflated(chunks: seq<Bytes>, wrapped: Codec, raw: Codec, deflate: bool, maxBytes: nat)
    returns (r: Result<Bytes, BodyError>)
    requires Streams(wrapped) && Streams(raw)
    ensures Answers(r, chunks, wrapped, raw, deflate, maxBytes)
  {
    hide Settled, Chosen, Streams;
    var inflater := new Inflater(wrapped, raw, deflate, maxBytes);
    StartsSettled(inflater, deflate, FirstData(chunks));
    ghost var first := FirstData(chunks);
    var body: Bytes := [];
    for i := 0 to |chunks|
      invariant inflater.Valid() && fresh(inflater) && fresh(inflater.obj)
      invariant inflater.wrapped == wrapped && inflater.raw == raw
      invariant inflater.obj.Emitted() == body && |body| <= maxBytes
      invariant Joined(chunks) == inflater.obj.given + Joined(chunks[i..])
      invariant Settled(inflater, deflate, first)
      invariant !inflater.started ==> FirstData(chunks[i..]) == first
    {
      assert chunks[i..][1..] == chunks[i+1..];
      ghost var before, left := inflater.obj.given, Joined(chunks[i+1..]);
      assert before + (chunks[i] + left) == before + chunks[i] + left;
      var fed := FeedChunk(inflater, chunks[i], body, maxBytes, deflate, first);
      if fed.Failure? {
        if inflater.obj.codec.decode(Joined(chunks)).Some? {
          MoreDecodesMore(inflater.obj.codec, before + chunks[i], Joined(chunks));
        }
        assert Decodes(fed, inflater.obj.codec, Joined(chunks), maxBytes);
        return fed;
      }
      body := fed.value;
    }
    assert chunks[|chunks|..] == [] && inflater.obj.given + [] == inflater.obj.given;
    SettledIsChosen(inflater, deflate, first);
    var rest := inflater.Finish(maxBytes - |body|);
    ghost var all := inflater.obj.codec.decode(Joined(chunks)).value;
    assert |body| <= |all| && body + all[|body|..] == all;
    r := if rest.Failure? then rest else Success(body + rest.value);
    assert Decodes(r, inflater.obj.codec, Joined(chunks), maxBytes);
  }

  lemma StartsSettled(inflater: Inflater, deflate: bool, first: Bytes)
    requires !inflater.started && inflater.obj.codec == inflater.wrapped && inflater.rawFallback == deflate
    ensures Settled(inflater, deflate, first)
  {
  }

  lemma SettledIsChosen(inflater: Inflater, deflate: bool, first: Bytes)
    requires Settled(inflater, deflate, first) && (!inflater.started ==> first == [])
    ensures Chosen(inflater.obj.codec, inflater.wrapped, inflater.raw, deflate, first)
  {
  }

  lemma MoreDecodesMore(c: Codec, a: Bytes, b: Bytes)
    requires Streams(c) && a <= b && c.decode(b).Some?
    ensures c.decode(a).Some? && |c.decode(a).value| <= |c.decode(b).value|
  {
  }

  // ------------------------------------------------------------------ where chunks do matter

  /**
   A body that is raw deflate and not wrapped is read, whatever happens, if and only if its first chunk alone shows
   that there is no header. The chunks after the first do not matter.
   */
  lemma RawIsReadWhenTheFirstChunkShowsIt(chunks: seq<Bytes>, wrapped: Codec, raw: Codec, maxBytes: nat)
    requires Streams(wrapped) && Streams(raw) && FirstData(chunks) != []
    requires wrapped.decode(Joined(chunks)).None? && raw.decode(Joined(chunks)).Some?
    ensures (forall r :: Answers(r, chunks, wrapped, raw, true, maxBytes) ==>
                           r == Capped(raw.decode(Joined(chunks)).value, maxBytes))
            <==> wrapped.rejects(FirstData(chunks))
  {
    hide Streams, Joined, FirstData;
    var first, input := FirstData(chunks), Joined(chunks);
    var failed: Result<Bytes, BodyError> := Failure(Unreadable);
    if !wrapped.rejects(first) {
      assert Chosen(wrapped, wrapped, raw, true, first) && Decodes(failed, wrapped, input, maxBytes);
      assert Answers(failed, chunks, wrapped, raw, true, maxBytes);
    } else {
      forall used | Chosen(used, wrapped, raw, true, first) ensures used == raw {
      }
    }
  }

  function Wrapped(input: Bytes): Option<Bytes> {
    if |input| == 0 || (input[0] == 0x78 && |input| >= 2) then Some([]) else if |input| == 1 then Some([]) else None
  }

  /** A decoder with a two-byte header it checks once it has it, and one that takes every byte as it is. */
  const TWO_BYTE_HEADER := Codec(Wrapped, (input: Bytes) => Wrapped(input).None?)

  const PLAIN := Codec((input: Bytes) => Some(input), (input: Bytes) => false)

  /** One raw body, cut after its second byte and after its first: read as such, and found corrupt. */
  lemma RawNeedsItsFirstTwoBytes(a: bv8, b: bv8)
    requires a != 0x78
    ensures Streams(TWO_BYTE_HEADER) && Streams(PLAIN)
    ensures forall used :: Chosen(used, TWO_BYTE_HEADER, PLAIN, true, FirstData([[a, b]])) ==>
              used == PLAIN && used.decode(Joined([[a, b]])) == Some([a, b])
    ensures forall used :: Chosen(used, TWO_BYTE_HEADER, PLAIN, true, FirstData([[a], [b]])) ==>
              used == TWO_BYTE_HEADER && used.decode(Joined([[a], [b]])) == None
  {
    assert [[a, b]][1..] == [] && [[a], [b]][1..] == [[b]] && [[b]][1..] == [];
    assert [a, b] + [] == [a, b] && [b] + [] == [b] && [a] + [b] == [a, b];
    assert Joined([[b]]) == [b] && Joined([[a], [b]]) == [a] + Joined([[b]]);
    assert Wrapped([a, b]) == None && Wrapped([a]) == Some([]);
  }
}
