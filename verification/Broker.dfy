/** The security boundary: one agent's surface over the tool catalog, scoped to one conversation. */
module Broker {
  import opened Wrappers
  import opened Messages

  /** Broker-only attributes of a tool. */
  datatype ToolMeta = ToolMeta(trusted: bool, sink: Option<string>, web: bool, staging: bool)

  datatype Agent = Agent(name: string, tools: set<string>, webAccess: bool)

  datatype ToolResult = ToolResult(content: string, untrusted: bool)

  datatype DenyReason = UnknownTool | NotAllowed | NoWebAccess | TaintedSink

  const JOB_CREATE := "job_create"
  const RELAY_TOOL := "relay"
  const GET_TIME := "get_time"

  /** What the broker reads out of a call's arguments. */
  datatype Reader = Reader(namesStart: ToolCall -> bool, isVerbatim: ToolCall -> bool)

  /** Jobs never file, draft, write, relay, or spawn more jobs. */
  predicate NotReportTool(name: string, meta: ToolMeta) {
    meta.staging || meta.sink.Some? || "job_" <= name
  }

  /** Taint for one conversation, not one turn. */
  class Scope {
    var tainted: bool

    constructor (messages: seq<Message>)
      ensures tainted == Tainted(messages)
    {
      tainted := Tainted(messages);
    }
  }

  /** A handler that ran, and whether untrusted text was already in the conversation then. */
  datatype Ran = Ran(call: ToolCall, tainted: bool)

  /** A call the boundary was given, and what it answered. */
  datatype Handed = Handed(call: ToolCall, result: ToolResult)

  function CallsIn(handed: seq<Handed>): (calls: seq<ToolCall>)
    ensures |calls| == |handed| && forall i :: 0 <= i < |calls| ==> calls[i] == handed[i].call
  {
    seq(|handed|, i requires 0 <= i < |handed| => handed[i].call)
  }

  function CallsRun(ran: seq<Ran>): (calls: seq<ToolCall>)
    ensures |calls| == |ran| && forall i :: 0 <= i < |calls| ==> calls[i] == ran[i].call
  {
    seq(|ran|, i requires 0 <= i < |ran| => ran[i].call)
  }

  predicate AllTainted(ran: seq<Ran>) { forall i :: 0 <= i < |ran| ==> ran[i].tainted }

  class BoundSurface {
    const catalog: map<string, ToolMeta>
    const deniedSinks: set<string>
    const agent: Agent
    const reader: Reader
    const reportOnly: bool
    const scope: Scope
    var staged: seq<ToolCall>
    var fetchedUntrusted: bool
    var readClock: bool
    var savedJobIds: seq<string>
    ghost var ran: seq<Ran>
    ghost var handed: seq<Handed>    // every call given to this surface, in order

    constructor (catalog: map<string, ToolMeta>, deniedSinks: set<string>, agent: Agent, reader: Reader,
                 scope: Scope, reportOnly: bool)
      ensures this.catalog == catalog && this.deniedSinks == deniedSinks && this.agent == agent
      ensures this.reader == reader && this.scope == scope && this.reportOnly == reportOnly
      ensures staged == [] && !fetchedUntrusted && !readClock && savedJobIds == [] && ran == [] && handed == []
    {
      this.catalog, this.deniedSinks, this.agent := catalog, deniedSinks, agent;
      this.reader, this.scope, this.reportOnly := reader, scope, reportOnly;
      staged, fetchedUntrusted, readClock, savedJobIds, ran, handed := [], false, false, [], [], [];
    }

    predicate SavesNow(call: ToolCall) {
      call.name == JOB_CREATE && reader.isVerbatim(call)
    }

    function DenyReason(name: string, tainted: bool): Option<DenyReason> {
      if name !in catalog then Some(UnknownTool)
      else if name !in agent.tools then Some(NotAllowed)
      else if reportOnly && NotReportTool(name, catalog[name]) then Some(NotAllowed)
      else if catalog[name].web && !agent.webAccess then Some(NoWebAccess)
      else if tainted && catalog[name].sink.Some? && catalog[name].sink.value in deniedSinks && !catalog[name].staging
      then Some(TaintedSink)
      else None
    }

    /** What the boundary promises about any handler that `Execute` lets run. */
    predicate Permitted(r: Ran) {
      && r.call.name in catalog && r.call.name in agent.tools
      && var meta := catalog[r.call.name];
      && (meta.web ==> agent.webAccess)
      && (meta.staging ==> !r.tainted && r.call.name == "job_create" && reader.isVerbatim(r.call))
      && (r.tainted && meta.sink.Some? ==> meta.sink.value !in deniedSinks)
      && (reportOnly ==> !meta.staging && meta.sink.None? && !("job_" <= r.call.name))
    }

    /** A call that may wait for a yes. */
    predicate Proposable(call: ToolCall) {
      && call.name in catalog && catalog[call.name].staging && call.name in agent.tools && !reportOnly
      && (catalog[call.name].web ==> agent.webAccess)
    }

    /** A named time must come after the clock was read in this turn. */
    predicate Timed(call: ToolCall, clockRead: bool) {
      call.name in {JOB_CREATE, RELAY_TOOL} && reader.namesStart(call) ==> clockRead
    }

    method Execute(call: ToolCall) returns (result: ToolResult)
      modifies this, scope
      ensures scope.tainted == (old(scope.tainted) || result.untrusted)
      ensures fetchedUntrusted == (old(fetchedUntrusted) || result.untrusted)
      ensures handed == old(handed) + [Handed(call, result)]
      ensures ran ==
                if Permitted(Ran(call, old(scope.tainted))) && Timed(call, old(readClock))
                then old(ran) + [Ran(call, old(scope.tainted))] else old(ran)
      ensures staged == old(staged) || staged == old(staged) + [call]
      ensures staged != old(staged) ==>
                Proposable(call) && Timed(call, old(readClock)) && (old(scope.tainted) || !SavesNow(call))
      ensures Proposable(call) && Timed(call, old(readClock)) && (old(scope.tainted) || !SavesNow(call)) ==>
                staged == old(staged) + [call] || result.content == "invalid_arguments"
      ensures !Proposable(call) && !Permitted(Ran(call, old(scope.tainted))) ==>
                result == ToolResult("tool_denied", false)
      ensures result.untrusted <==> ran != old(ran) && call.name in catalog && !catalog[call.name].trusted
      ensures readClock != old(readClock) ==> call.name == GET_TIME && ran != old(ran)
      ensures old(savedJobIds) <= savedJobIds
      ensures savedJobIds != old(savedJobIds) ==> call.name == JOB_CREATE && ran != old(ran)
    {
      if DenyReason(call.name, scope.tainted).Some? {
        result := ToolResult("tool_denied", false);
      } else if call.name in {JOB_CREATE, RELAY_TOOL} && reader.namesStart(call) && !readClock {
        result := ToolResult("invalid_arguments", false);
      } else if catalog[call.name].staging && (scope.tainted || !SavesNow(call)) {
        var refused: bool := *;
        if refused {
          result := ToolResult("invalid_arguments", false);
        } else {
          staged := staged + [call];
          result := ToolResult("staged", false);
        }
      } else {
        result := Handle(call, catalog[call.name]);
        var failed: bool, saved: Option<string> := *, *;
        if call.name == GET_TIME && !failed {
          readClock := true;
        }
        if call.name == JOB_CREATE && saved.Some? {
          savedJobIds := savedJobIds + [saved.value];
        }
      }
      handed := handed + [Handed(call, result)];
    }

    /** Run a previously staged call. The handler runs; it is not staged again. */
    method Commit(call: ToolCall) returns (result: ToolResult)
      modifies this, scope
      ensures scope.tainted == (old(scope.tainted) || result.untrusted)
      ensures staged == old(staged)
      ensures handed == old(handed) + [Handed(call, result)]
      ensures ran ==
                if && call.name in catalog && call.name in agent.tools
                   && (reportOnly ==> !NotReportTool(call.name, catalog[call.name]))
                   && (catalog[call.name].web ==> agent.webAccess)
                   && (old(scope.tainted) && catalog[call.name].sink.Some? && !catalog[call.name].staging ==>
                         catalog[call.name].sink.value !in deniedSinks)
                then old(ran) + [Ran(call, old(scope.tainted))] else old(ran)
      ensures ran == old(ran) ==> result == ToolResult("tool_denied", false)
      ensures Proposable(call) ==> ran != old(ran)
    {
      if DenyReason(call.name, scope.tainted).Some? {
        result := ToolResult("tool_denied", false);
      } else {
        result := Handle(call, catalog[call.name]);
        var saved: Option<string> := *;
        if call.name == JOB_CREATE && saved.Some? {
          savedJobIds := savedJobIds + [saved.value];
        }
      }
      handed := handed + [Handed(call, result)];
    }

    /** The handler itself. Whatever it raises comes back as text, so only its label matters here. */
    method Handle(call: ToolCall, meta: ToolMeta) returns (result: ToolResult)
      modifies this`fetchedUntrusted, this`ran, scope
      ensures result.untrusted == !meta.trusted
      ensures scope.tainted == (old(scope.tainted) || result.untrusted)
      ensures fetchedUntrusted == (old(fetchedUntrusted) || result.untrusted)
      ensures ran == old(ran) + [Ran(call, old(scope.tainted))]
    {
      ran := ran + [Ran(call, scope.tainted)];
      var content: string := *;
      if !meta.trusted {
        scope.tainted := true;
        fetchedUntrusted := true;
      }
      return ToolResult(content, !meta.trusted);
    }

    method TakeStaged() returns (calls: seq<ToolCall>)
      modifies this`staged
      ensures calls == old(staged) && staged == []
    {
      calls := staged;
      staged := [];
    }
  }
}
