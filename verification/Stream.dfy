/** One streamed answer: frames in, a completion out. */
module Stream {
  import opened Wrappers
  import opened Messages
  import opened Sse
  import opened Collections

  datatype Usage = Usage(promptTokens: int, completionTokens: int)

  /** One tool-call fragment. Empty strings are fragments that say nothing. */
  datatype ToolDelta = ToolDelta(index: int, id: string, name: string, arguments: string)

  /** A decoded frame: what it says, of the parts that count. */
  datatype Event = Event(error: bool, usage: Option<Usage>, text: string, tools: seq<ToolDelta>, reason: Option<string>)

  datatype Frame = Malformed | Empty | Decoded(event: Event)

  datatype StreamError = BadFrame | ProviderError | NoName(index: int) | NoId(index: int) | BadArguments(index: int)

  datatype Slot = Slot(id: string, name: string, arguments: string)

  datatype Completion = Completion(
    content: string,
    toolCalls: seq<ToolCall>,
    reason: Option<string>,
    usage: Option<Usage>)

  /** JSON, as the client uses it. */
  datatype Json = Json(decode: string -> Frame, isObject: string -> bool)

  const DONE := "[DONE]"

  type Tools = map<int, Slot>

  datatype State = State(content: seq<string>, tools: Tools, reason: Option<string>, usage: Option<Usage>)

  const BLANK := State([], map[], None, None)

  function Filled(slot: Slot, d: ToolDelta): Slot {
    Slot(if d.id != "" then d.id else slot.id, if d.name != "" then d.name else slot.name, slot.arguments + d.arguments)
  }

  function AddTool(tools: Tools, d: ToolDelta): Tools {
    tools[d.index := Filled(if d.index in tools then tools[d.index] else Slot("", "", ""), d)]
  }

  function AddTools(tools: Tools, ds: seq<ToolDelta>): Tools
    decreases |ds|
  {
    if ds == [] then tools else AddTools(AddTool(tools, ds[0]), ds[1..])
  }

  function Applied(s: State, e: Event): State {
    State(if e.text != "" then s.content + [e.text] else s.content, AddTools(s.tools, e.tools),
          if e.reason.Some? then e.reason else s.reason, if e.usage.Some? then e.usage else s.usage)
  }

  function DecodeFrame(json: Json, payload: string): Frame {
    if payload == "" then Empty else json.decode(payload)
  }

  /** The state after these payloads, and whether the end mark was among them. */
  function Consumed(json: Json, s: State, payloads: seq<string>): Result<(State, bool), StreamError>
    decreases |payloads|
  {
    if payloads == [] then Success((s, false))
    else if payloads[0] == DONE then Success((s, true))
    else match DecodeFrame(json, payloads[0])
      case Malformed => Failure(BadFrame)
      case Empty => Consumed(json, s, payloads[1..])
      case Decoded(e) => if e.error then Failure(ProviderError) else Consumed(json, Applied(s, e), payloads[1..])
  }

  predicate Any(keys: set<int>) { exists k :: k in keys }

  lemma {:induction false} LeastOf(keys: set<int>) returns (m: int)
    requires Any(keys)
    ensures m in keys && forall k :: k in keys ==> m <= k
  {
    m :| m in keys;
    var others := keys - {m};
    if Any(others) {
      var r := LeastOf(others);
      m := if m <= r then m else r;
    }
    forall k | k in keys ensures m <= k {
      assert k in others || k !in others;
    }
  }

  lemma LeastExists(keys: set<int>)
    requires Any(keys)
    ensures exists m :: m in keys && forall k :: k in keys ==> m <= k
  {
    var _ := LeastOf(keys);
  }

  function Least(keys: set<int>): (m: int)
    requires Any(keys)
    ensures m in keys && forall k :: k in keys ==> m <= k
  {
    LeastExists(keys);
    var m :| m in keys && forall k :: k in keys ==> m <= k;
    m
  }

  function CallOf(json: Json, index: int, slot: Slot): Result<ToolCall, StreamError> {
    if slot.name == "" then Failure(NoName(index))
    else if slot.id == "" then Failure(NoId(index))
    else if slot.arguments != "" && !json.isObject(slot.arguments) then Failure(BadArguments(index))
    else Success(ToolCall(slot.id, slot.name, if slot.arguments == "" then "{}" else slot.arguments))
  }

  /** The calls by rising index, or what is wrong with the first bad one. */
  function Calls(json: Json, tools: Tools): Result<seq<ToolCall>, StreamError>
    decreases |tools|
  {
    if !Any(tools.Keys) then Success([])
    else
      var i := Least(tools.Keys);
      var call := CallOf(json, i, tools[i]);
      if call.Failure? then Failure(call.error)
      else
        Prefixed([call.value], Calls(json, tools - {i}))
  }

  function Prefixed(calls: seq<ToolCall>, rest: Result<seq<ToolCall>, StreamError>)
    : Result<seq<ToolCall>, StreamError>
  {
    if rest.Failure? then rest else Success(calls + rest.value)
  }

  function Finished(json: Json, s: State): Result<Completion, StreamError> {
    var calls := Calls(json, s.tools);
    if calls.Failure? then Failure(calls.error)
    else Success(Completion(Join(s.content), calls.value, s.reason, s.usage))
  }

  /** What the whole text of a response means. */
  function Meaning(json: Json, text: string): Result<Completion, StreamError> {
    var end := Consumed(json, BLANK, AllPayloads(text));
    if end.Failure? then Failure(end.error) else Finished(json, end.value.0)
  }

  // ------------------------------------------------------------------ the client

  class StreamState {
    var content: seq<string>
    var tools: Tools
    var reason: Option<string>
    var usage: Option<Usage>

    constructor ()
      ensures Now() == BLANK
    {
      content, tools, reason, usage := [], map[], None, None;
    }

    function Now(): State
      reads this
    {
      State(content, tools, reason, usage)
    }

    method ApplyEvent(e: Event) returns (failed: bool)
      modifies this
      ensures failed == e.error
      ensures Now() == if failed then old(Now()) else Applied(old(Now()), e)
    {
      if e.error {
        return true;
      }
      if e.usage.Some? {
        usage := e.usage;
      }
      if e.text != "" {
        content := content + [e.text];
      }
      AccumulateToolDeltas(e.tools);
      if e.reason.Some? {
        reason := e.reason;
      }
      return false;
    }

    method AccumulateToolDeltas(deltas: seq<ToolDelta>)
      modifies this`tools
      ensures tools == AddTools(old(tools), deltas)
    {
      for i := 0 to |deltas|
        invariant AddTools(tools, deltas[i..]) == AddTools(old(tools), deltas)
      {
        var d := deltas[i];
        var slot := if d.index in tools then tools[d.index] else Slot("", "", "");
        if d.id != "" {
          slot := slot.(id := d.id);
        }
        if d.name != "" {
          slot := slot.(name := d.name);
        }
        if d.arguments != "" {
          slot := slot.(arguments := slot.arguments + d.arguments);
        }
        assert slot == Filled(if d.index in tools then tools[d.index] else Slot("", "", ""), d);
        tools := tools[d.index := slot];
      }
    }
  }

  /** Feed one chunk, or flush when there is none. True once the end mark was seen. */
  method Ingest(json: Json, buffer: SSEBuffer, chunk: Option<string>, state: StreamState)
    returns (r: Result<bool, StreamError>)
    modifies buffer, state
    ensures var payloads := if chunk.Some? then Payloads(old(buffer.pending) + chunk.value)
                            else Listed(PayloadFromLine(old(buffer.pending)));
            var end := Consumed(json, old(state.Now()), payloads);
            if end.Failure? then r == Failure(end.error) else r == Success(end.value.1) && state.Now() == end.value.0
    ensures buffer.pending == if chunk.Some? then Tail(old(buffer.pending) + chunk.value) else ""
  {
    var payloads: seq<string>;
    if chunk.Some? {
      payloads := buffer.Push(chunk.value);
    } else {
      payloads := buffer.Flush();
    }
    r := IngestAll(json, payloads, state);
  }

  method IngestAll(json: Json, payloads: seq<string>, state: StreamState) returns (r: Result<bool, StreamError>)
    modifies state
    ensures var end := Consumed(json, old(state.Now()), payloads);
            if end.Failure? then r == Failure(end.error) else r == Success(end.value.1) && state.Now() == end.value.0
  {
    hide AddTools, Applied;
    ghost var end := Consumed(json, state.Now(), payloads);
    for i := 0 to |payloads|
      invariant Consumed(json, state.Now(), payloads[i..]) == end
    {
      assert payloads[i..][0] == payloads[i] && payloads[i..][1..] == payloads[i+1..];
      if payloads[i] == DONE {
        return Success(true);
      }
      var frame := DecodeFrame(json, payloads[i]);
      if frame.Malformed? {
        return Failure(BadFrame);
      }
      if frame.Decoded? {
        var failed := state.ApplyEvent(frame.event);
        if failed {
          return Failure(ProviderError);
        }
      }
    }
    assert payloads[|payloads|..] == [];
    return Success(false);
  }

  predicate Rising(order: seq<int>) { forall i, k :: 0 <= i < k < |order| ==> order[i] < order[k] }

  predicate Lists(order: seq<int>, keys: set<int>) {
    (forall i :: 0 <= i < |order| ==> order[i] in keys) && forall k :: k in keys ==> k in order
  }

  predicate Yields(json: Json, tools: Tools, order: seq<int>, calls: seq<ToolCall>) {
    && |calls| == |order|
    && forall i :: 0 <= i < |order| ==> order[i] in tools && MadeFrom(json, tools[order[i]], calls[i])
  }

  /** A slot with a name, an id, and arguments that are an object or absent. */
  predicate Whole(json: Json, slot: Slot) {
    slot.name != "" && slot.id != "" && (slot.arguments != "" ==> json.isObject(slot.arguments))
  }

  /** The call a whole slot makes; absent arguments are an empty object. */
  predicate MadeFrom(json: Json, slot: Slot, call: ToolCall) {
    && Whole(json, slot) && call.id == slot.id && call.name == slot.name
    && call.arguments == if slot.arguments == "" then "{}" else slot.arguments
  }

  /** What is wrong with a slot that is not whole, the name first. */
  predicate WrongWith(json: Json, index: int, slot: Slot, error: StreamError) {
    if slot.name == "" then error == NoName(index)
    else if slot.id == "" then error == NoId(index)
    else slot.arguments != "" && !json.isObject(slot.arguments) && error == BadArguments(index)
  }

  lemma CallIsMade(json: Json, index: int, slot: Slot)
    ensures CallOf(json, index, slot).Success? ==> MadeFrom(json, slot, CallOf(json, index, slot).value)
    ensures CallOf(json, index, slot).Failure? ==>
              !Whole(json, slot) && WrongWith(json, index, slot, CallOf(json, index, slot).error)
  {
  }

  /** One call for each slot, by rising index. */
  predicate BySlot(json: Json, tools: Tools, order: seq<int>, calls: seq<ToolCall>) {
    Rising(order) && Lists(order, tools.Keys) && Yields(json, tools, order, calls)
  }

  /** The first slot that makes no call. */
  predicate FirstBad(json: Json, tools: Tools, index: int, error: StreamError) {
    && index in tools && !Whole(json, tools[index]) && WrongWith(json, index, tools[index], error)
    && forall k :: k in tools && k < index ==> Whole(json, tools[k])
  }

  lemma {:induction false} CallsRise(json: Json, tools: Tools) returns (order: seq<int>)
    requires Calls(json, tools).Success?
    ensures BySlot(json, tools, order, Calls(json, tools).value)
    decreases |tools|
  {
    hide BySlot;
    order := [];
    if !Any(tools.Keys) {
      NoSlots(json, tools);
    } else {
      var i := Least(tools.Keys);
      var rest := CallsRise(json, tools - {i});
      order := [i] + rest;
      CallIsMade(json, i, tools[i]);
      OneSlotMore(json, tools, i, rest, CallOf(json, i, tools[i]).value, Calls(json, tools - {i}).value);
    }
  }

  lemma NoSlots(json: Json, tools: Tools)
    requires !Any(tools.Keys)
    ensures BySlot(json, tools, [], [])
  {
  }

  lemma OneSlotMore(json: Json, tools: Tools, i: int, order: seq<int>, call: ToolCall, calls: seq<ToolCall>)
    requires i in tools && (forall k :: k in tools ==> i <= k) && MadeFrom(json, tools[i], call)
    requires BySlot(json, tools - {i}, order, calls)
    ensures BySlot(json, tools, [i] + order, [call] + calls)
  {
    hide MadeFrom, Rising, Yields;
    var keys := tools.Keys;
    assert (tools - {i}).Keys == keys - {i};
    OneKeyMore(order, keys, i);
    OneYieldMore(json, tools, i, order, call, calls);
  }

  lemma OneKeyMore(order: seq<int>, keys: set<int>, i: int)
    requires Rising(order) && Lists(order, keys - {i}) && i in keys && forall k :: k in keys ==> i <= k
    ensures Rising([i] + order) && Lists([i] + order, keys)
  {
    var more := [i] + order;
    forall a, b | 0 <= a < b < |more| ensures more[a] < more[b] {
      assert more[b] == order[b-1] && order[b-1] in keys - {i};
    }
    forall k | k in keys ensures k in more {
      assert more[0] == i;
      if k != i {
        assert k in keys - {i};
        var at :| 0 <= at < |order| && order[at] == k;
        assert more[at+1] == k;
      }
    }
  }

  lemma OneYieldMore(json: Json, tools: Tools, i: int, order: seq<int>, call: ToolCall, calls: seq<ToolCall>)
    requires i in tools && MadeFrom(json, tools[i], call) && Yields(json, tools - {i}, order, calls)
    ensures Yields(json, tools, [i] + order, [call] + calls)
  {
    hide MadeFrom;
    var more := [i] + order;
    forall k | 0 <= k < |more|
      ensures more[k] in tools && MadeFrom(json, tools[more[k]], ([call] + calls)[k])
    {
      if k > 0 {
        assert order[k-1] in tools - {i} && (tools - {i})[order[k-1]] == tools[order[k-1]];
      }
    }
  }

  lemma {:induction false} FirstBadIsTold(json: Json, tools: Tools) returns (index: int)
    requires Calls(json, tools).Failure?
    ensures FirstBad(json, tools, index, Calls(json, tools).error)
    decreases |tools|
  {
    var i := Least(tools.Keys);
    CallIsMade(json, i, tools[i]);
    if CallOf(json, i, tools[i]).Failure? {
      index := i;
    } else {
      index := FirstBadIsTold(json, tools - {i});
      assert forall k :: k in tools <==> k == i || k in tools - {i};
    }
  }

  lemma PrefixedByNothing(rest: Result<seq<ToolCall>, StreamError>)
    ensures Prefixed([], rest) == rest
  {
    assert rest.Success? ==> [] + rest.value == rest.value;
  }

  lemma PrefixedTwice(a: seq<ToolCall>, b: seq<ToolCall>, rest: Result<seq<ToolCall>, StreamError>)
    ensures Prefixed(a, Prefixed(b, rest)) == Prefixed(a + b, rest)
  {
    assert rest.Success? ==> a + (b + rest.value) == a + b + rest.value;
  }

  method Finish(json: Json, state: StreamState) returns (r: Result<Completion, StreamError>)
    ensures r == Finished(json, state.Now())
    ensures r.Success? ==>
              r.value.content == Join(state.content) && r.value.reason == state.reason && r.value.usage == state.usage
    ensures r.Success? ==> exists order :: BySlot(json, state.tools, order, r.value.toolCalls)
    ensures r.Failure? ==> exists index :: FirstBad(json, state.tools, index, r.error)
  {
    if Calls(json, state.tools).Success? {
      var order := CallsRise(json, state.tools);
    } else {
      var index := FirstBadIsTold(json, state.tools);
    }
    var calls: seq<ToolCall>, left := [], state.tools;
    PrefixedByNothing(Calls(json, left));
    while Any(left.Keys)
      invariant left.Keys <= state.tools.Keys
      invariant Calls(json, state.tools) == Prefixed(calls, Calls(json, left))
      decreases |left|
    {
      var i := Least(left.Keys);
      var call := CallOf(json, i, left[i]);
      if call.Failure? {
        return Failure(call.error);
      }
      PrefixedTwice(calls, [call.value], Calls(json, left - {i}));
      calls, left := calls + [call.value], left - {i};
    }
    assert calls + [] == calls;
    return Success(Completion(Join(state.content), calls, state.reason, state.usage));
  }

  lemma {:induction false} ConsumedInParts(json: Json, s: State, a: seq<string>, b: seq<string>)
    ensures var first := Consumed(json, s, a);
            Consumed(json, s, a + b) ==
              if first.Failure? || first.value.1 then first else Consumed(json, first.value.0, b)
    decreases |a|
  {
    if a == [] {
      assert a + b == b;
    } else {
      assert (a + b)[1..] == a[1..] + b;
      if a[0] != DONE && DecodeFrame(json, a[0]).Empty? {
        ConsumedInParts(json, s, a[1..], b);
      } else if a[0] != DONE && DecodeFrame(json, a[0]).Decoded? {
        ConsumedInParts(json, Applied(s, DecodeFrame(json, a[0]).event), a[1..], b);
      }
    }
  }

  /** However the response is cut into chunks, the completion or the error is that of the whole text. */
  method AccumulateStream(json: Json, chunks: seq<string>) returns (r: Result<Completion, StreamError>)
    ensures r == Meaning(json, Join(chunks))
  {
    var buffer := new SSEBuffer();
    var state := new StreamState();
    ghost var all := AllPayloads(Join(chunks));
    ChunkingDoesNotMatter("", chunks);
    assert "" + Join(chunks) == Join(chunks);
    for i := 0 to |chunks|
      invariant Consumed(json, state.Now(), Fed(buffer.pending, chunks[i..])) == Consumed(json, BLANK, all)
    {
      ConsumedInParts(json, state.Now(), Payloads(buffer.pending + chunks[i]),
                      Fed(Tail(buffer.pending + chunks[i]), chunks[i+1..]));
      assert chunks[i..][1..] == chunks[i+1..];
      var ended := Ingest(json, buffer, Some(chunks[i]), state);
      if ended.Failure? {
        return Failure(ended.error);
      }
      if ended.value {
        r := Finish(json, state);
        return;
      }
    }
    var ended := Ingest(json, buffer, None, state);
    if ended.Failure? {
      return Failure(ended.error);
    }
    r := Finish(json, state);
  }

  // ------------------------------------------------------------------ what the completion is made of

  /** The fragments of one index, in order. */
  function OfIndex(ds: seq<ToolDelta>, index: int): seq<ToolDelta> {
    if ds == [] then [] else (if ds[0].index == index then [ds[0]] else []) + OfIndex(ds[1..], index)
  }

  function Arguments(ds: seq<ToolDelta>): string {
    if ds == [] then "" else ds[0].arguments + Arguments(ds[1..])
  }

  /** The last fragment that says something wins. */
  function LastId(ds: seq<ToolDelta>, before: string): string
    decreases |ds|
  {
    if ds == [] then before else LastId(ds[1..], if ds[0].id != "" then ds[0].id else before)
  }

  function LastName(ds: seq<ToolDelta>, before: string): string
    decreases |ds|
  {
    if ds == [] then before else LastName(ds[1..], if ds[0].name != "" then ds[0].name else before)
  }

  /** Fragments of other indices do not matter: each slot is made of its own, in order. */
  lemma {:induction false} SlotsAreSeparate(tools: Tools, ds: seq<ToolDelta>, index: int)
    ensures var mine, after := OfIndex(ds, index), AddTools(tools, ds);
            var was := if index in tools then tools[index] else Slot("", "", "");
            && (index in after <==> index in tools || mine != [])
            && (index in after ==>
                  after[index] == Slot(LastId(mine, was.id), LastName(mine, was.name), was.arguments + Arguments(mine)))
    decreases |ds|
  {
    if ds != [] {
      var d, rest := ds[0], OfIndex(ds[1..], index);
      SlotsAreSeparate(AddTool(tools, d), ds[1..], index);
      if d.index == index {
        assert OfIndex(ds, index)[1..] == rest;
        var was := if index in tools then tools[index] else Slot("", "", "");
        assert was.arguments + d.arguments + Arguments(rest) == was.arguments + (d.arguments + Arguments(rest));
      } else {
        assert OfIndex(ds, index) == rest;
      }
    } else if index in tools {
      assert tools[index].arguments + "" == tools[index].arguments;
    }
  }

  /** The events before the end mark, when none is an error. */
  function Events(json: Json, payloads: seq<string>): seq<Event> {
    if payloads == [] || payloads[0] == DONE then []
    else match DecodeFrame(json, payloads[0])
      case Malformed => []
      case Empty => Events(json, payloads[1..])
      case Decoded(e) => [e] + Events(json, payloads[1..])
  }

  function Texts(es: seq<Event>): string {
    if es == [] then "" else es[0].text + Texts(es[1..])
  }

  function Deltas(es: seq<Event>): seq<ToolDelta> {
    if es == [] then [] else es[0].tools + Deltas(es[1..])
  }

  lemma {:induction false} AddToolsInParts(tools: Tools, a: seq<ToolDelta>, b: seq<ToolDelta>)
    ensures AddTools(tools, a + b) == AddTools(AddTools(tools, a), b)
    decreases |a|
  {
    if a == [] {
      assert a + b == b;
    } else {
      assert (a + b)[1..] == a[1..] + b;
      AddToolsInParts(AddTool(tools, a[0]), a[1..], b);
    }
  }

  lemma {:induction false} JoinOneMore(chunks: seq<string>, s: string)
    ensures Join(chunks + [s]) == Join(chunks) + s
  {
    if chunks == [] {
      assert [s][1..] == [];
      assert [] + [s] == [s];
      assert s + "" == s;
    } else {
      assert (chunks + [s])[1..] == chunks[1..] + [s];
      JoinOneMore(chunks[1..], s);
      assert chunks[0] + Join(chunks[1..]) + s == chunks[0] + (Join(chunks[1..]) + s);
    }
  }

  /** The last event that gives a reason, or counts, wins. */
  function LastReason(es: seq<Event>, before: Option<string>): Option<string>
    decreases |es|
  {
    if es == [] then before else LastReason(es[1..], if es[0].reason.Some? then es[0].reason else before)
  }

  function LastUsage(es: seq<Event>, before: Option<Usage>): Option<Usage>
    decreases |es|
  {
    if es == [] then before else LastUsage(es[1..], if es[0].usage.Some? then es[0].usage else before)
  }

  /** This state is what these events made of that one. */
  predicate MadeOf(s: State, after: State, es: seq<Event>) {
    && Join(after.content) == Join(s.content) + Texts(es) && after.tools == AddTools(s.tools, Deltas(es))
    && after.reason == LastReason(es, s.reason) && after.usage == LastUsage(es, s.usage)
  }

  lemma MadeOfOneMore(s: State, e: Event, after: State, es: seq<Event>)
    requires MadeOf(Applied(s, e), after, es)
    ensures MadeOf(s, after, [e] + es)
  {
    hide AddTools;
    var more := [e] + es;
    assert more[1..] == es;
    assert Deltas(more) == e.tools + Deltas(es);
    AddToolsInParts(s.tools, e.tools, Deltas(es));
    JoinOneMore(s.content, e.text);
    assert Join(s.content) + "" == Join(s.content);
    JoinTwice(Join(s.content), e.text, Texts(es));
    assert Texts(more) == e.text + Texts(es);
  }

  /** The content is the texts joined, and the slots are made of all the fragments, frame boundaries aside. */
  lemma {:induction false} StateIsMadeOfEvents(json: Json, s: State, payloads: seq<string>)
    requires Consumed(json, s, payloads).Success?
    ensures MadeOf(s, Consumed(json, s, payloads).value.0, Events(json, payloads))
    decreases |payloads|
  {
    hide AddTools, Applied, Join;
    if payloads == [] || payloads[0] == DONE {
      NothingMade(s);
    } else if DecodeFrame(json, payloads[0]).Empty? {
      StateIsMadeOfEvents(json, s, payloads[1..]);
    } else {
      var e := DecodeFrame(json, payloads[0]).event;
      StateIsMadeOfEvents(json, Applied(s, e), payloads[1..]);
      MadeOfOneMore(s, e, Consumed(json, s, payloads).value.0, Events(json, payloads[1..]));
    }
  }

  /** A frame that ends the answer: no JSON, or an error of the provider. */
  predicate Breaks(json: Json, payload: string, error: StreamError) {
    && payload != DONE && payload != ""
    && match json.decode(payload)
       case Malformed => error == BadFrame
       case Empty => false
       case Decoded(e) => e.error && error == ProviderError
  }

  /** A frame the answer goes on after. */
  predicate Harmless(json: Json, payload: string) {
    && payload != DONE
    && (payload == ""
        || match json.decode(payload)
           case Malformed => false
           case Empty => true
           case Decoded(e) => !e.error)
  }

  /** An answer fails if and only if a frame before the end mark breaks it, and with the first such frame's error. */
  lemma {:induction false} FailsAtTheFirstBreak(json: Json, s: State, payloads: seq<string>) returns (at: nat)
    ensures at <= |payloads|
    ensures forall i :: 0 <= i < at ==> Harmless(json, payloads[i])
    ensures Consumed(json, s, payloads).Failure? ==>
              at < |payloads| && Breaks(json, payloads[at], Consumed(json, s, payloads).error)
    ensures Consumed(json, s, payloads).Success? ==> at == |payloads| || payloads[at] == DONE
    ensures Consumed(json, s, payloads).Success? ==> Consumed(json, s, payloads).value.1 == (at < |payloads|)
    decreases |payloads|
  {
    hide Applied;
    at := 0;
    if payloads != [] && payloads[0] != DONE && DecodeFrame(json, payloads[0]).Empty? {
      at := FailsAtTheFirstBreak(json, s, payloads[1..]);
      at := at + 1;
    } else if payloads != [] && payloads[0] != DONE && DecodeFrame(json, payloads[0]).Decoded? {
      var e := DecodeFrame(json, payloads[0]).event;
      if !e.error {
        at := FailsAtTheFirstBreak(json, Applied(s, e), payloads[1..]);
        at := at + 1;
      }
    }
    forall i | 0 <= i < at ensures Harmless(json, payloads[i]) {
      if i > 0 {
        assert payloads[i] == payloads[1..][i-1];
      }
    }
  }

  /** An answer is the texts of its events, one call a slot of their fragments, and their last reason and usage. */
  lemma AnswerIsMadeOfItsEvents(json: Json, text: string) returns (order: seq<int>)
    requires Meaning(json, text).Success?
    ensures var answer, es := Meaning(json, text).value, Events(json, AllPayloads(text));
            && answer.content == Texts(es) && BySlot(json, AddTools(map[], Deltas(es)), order, answer.toolCalls)
            && answer.reason == LastReason(es, None) && answer.usage == LastUsage(es, None)
  {
    hide Consumed, Events, BySlot, Calls, AddTools, AllPayloads;
    StateIsMadeOfEvents(json, BLANK, AllPayloads(text));
    order := CallsRise(json, Consumed(json, BLANK, AllPayloads(text)).value.0.tools);
    assert "" + Texts(Events(json, AllPayloads(text))) == Texts(Events(json, AllPayloads(text)));
  }

  lemma NothingMade(s: State)
    ensures MadeOf(s, s, [])
  {
    assert Join(s.content) + "" == Join(s.content);
  }
}
