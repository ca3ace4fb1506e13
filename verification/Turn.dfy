/** One conversation turn: a completion, the tools it asks for, another completion. */
module Turn {
  import opened Wrappers
  import opened Messages
  import opened Broker
  import T = TrustedContext

  /** A reply, a failure the channel catches, or an exception it does not. */
  datatype TurnEnd = Replied | Failed | Escaped

  /** The tracker that must follow the list: the conversation's, or for a background run its own. */
  function Tracker(surface: BoundSurface): bool
    reads surface, surface.scope
  {
    if surface.reportOnly then surface.fetchedUntrusted else surface.scope.tainted
  }

  /** From `start` on, an assistant message is labelled exactly when something untrusted came before it. */
  predicate Labelled(items: seq<Message>, start: nat) {
    forall k :: start <= k < |items| ==>
                  && items[k].role != System
                  && (items[k].role == Assistant ==> items[k].untrusted == Tainted(items[..k]))
  }

  lemma TaintGrows(items: seq<Message>, m: Message)
    ensures Tainted(items + [m]) == (Tainted(items) || m.untrusted)
  {
    if Tainted(items) {
      var i :| 0 <= i < |items| && items[i].untrusted;
      assert (items + [m])[i] == items[i];
    }
    if m.untrusted {
      assert (items + [m])[|items|].untrusted;
    }
  }

  lemma LabelsStay(items: seq<Message>, m: Message, start: nat)
    requires Labelled(items, start)
    requires m.role != System && (m.role == Assistant && |items| >= start ==> m.untrusted == Tainted(items))
    ensures Labelled(items + [m], start)
  {
    var more := items + [m];
    forall k | start <= k < |more|
      ensures more[k].role != System && (more[k].role == Assistant ==> more[k].untrusted == Tainted(more[..k]))
    {
      assert more[..k] == items[..k];
      assert items[..|items|] == items;
    }
  }

  /** Every handler since `from_` was permitted, and none that stages ran on tainted text. */
  predicate AllPermitted(surface: BoundSurface, ran: seq<Ran>) {
    forall i :: 0 <= i < |ran| ==> surface.Permitted(ran[i])
  }

  /** Every call staged since waits for a yes because its tool says so. */
  predicate AllProposable(surface: BoundSurface, calls: seq<ToolCall>) {
    forall i :: 0 <= i < |calls| ==> surface.Proposable(calls[i])
  }

  /** The surface only ever moves forward, and every handler it ran was permitted. */
  twostate predicate Behaved(surface: BoundSurface)
    reads surface
  {
    && old(surface.ran) <= surface.ran
    && AllPermitted(surface, surface.ran[|old(surface.ran)|..])
    && old(surface.staged) <= surface.staged
    && AllProposable(surface, surface.staged[|old(surface.staged)|..])
    && (surface.reportOnly ==> surface.staged == old(surface.staged))
  }

  /** The list grew by whole exchanges and plain replies, each labelled for what came before it. */
  predicate Grew(before: seq<Message>, items: seq<Message>) {
    before <= items && Labelled(items, |before|) && Dialogue(items[|before|..])
  }

  lemma GrewByReply(before: seq<Message>, items: seq<Message>, reply: Message)
    requires Grew(before, items) && IsPlain(reply) && reply.untrusted == Tainted(items)
    ensures Grew(before, items + [reply])
  {
    LabelsStay(items, reply, |before|);
    assert (items + [reply])[|before|..] == items[|before|..] + [reply];
    T.DialogueJoins(items[|before|..], [reply]);
  }

  lemma GrewByExchange(before: seq<Message>, items: seq<Message>, more: seq<Message>)
    requires Grew(before, items) && items < more && Labelled(more, |before|)
    requires IsCall(more[|items|]) && Answers(more[|items|+1..], more[|items|].toolCalls)
    ensures Grew(before, more)
  {
    var exchange := more[|items|..];
    assert more[|before|..] == items[|before|..] + exchange;
    assert exchange[1..] == more[|items|+1..];
    AnswersMakeDialogue(exchange);
    T.DialogueJoins(items[|before|..], exchange);
  }

  /** All calls asked for in these messages, in order. */
  function Asked(items: seq<Message>): seq<ToolCall> {
    if items == [] then [] else Asked(items[..|items|-1]) + items[|items|-1].toolCalls
  }

  lemma AskedMore(items: seq<Message>, start: nat, m: Message)
    requires start <= |items|
    ensures Asked((items + [m])[start..]) == Asked(items[start..]) + m.toolCalls
  {
    var more := (items + [m])[start..];
    assert more[..|more|-1] == items[start..] && more[|more|-1] == m;
  }

  /** How often the model asked for tools. */
  function Rounds(items: seq<Message>): nat {
    if items == [] then 0 else Rounds(items[..|items|-1]) + if IsCall(items[|items|-1]) then 1 else 0
  }

  lemma RoundsMore(items: seq<Message>, start: nat, m: Message)
    requires start <= |items|
    ensures Rounds((items + [m])[start..]) == Rounds(items[start..]) + if IsCall(m) then 1 else 0
  {
    var more := (items + [m])[start..];
    assert more[..|more|-1] == items[start..] && more[|more|-1] == m;
  }

  /** Calls handed over one after the other. */
  lemma HandedMore(a: seq<Handed>, b: seq<Handed>, c: seq<Handed>)
    requires a <= b <= c
    ensures CallsIn(c[|a|..]) == CallsIn(b[|a|..]) + CallsIn(c[|b|..])
  {
    assert c[|a|..] == b[|a|..] + c[|b|..];
  }

  method RunTurn(messages: MessageList, surface: BoundSurface, maxRounds: nat) returns (end: TurnEnd)
    requires Tracker(surface) == Tainted(messages.items)
    modifies messages, surface, surface.scope
    ensures Tracker(surface) == Tainted(messages.items)
    ensures old(messages.items) <= messages.items
    ensures Labelled(messages.items, |old(messages.items)|)
    ensures Behaved(surface)
    ensures old(surface.handed) <= surface.handed
    ensures CallsIn(surface.handed[|old(surface.handed)|..]) <= Asked(messages.items[|old(messages.items)|..])
    ensures end.Replied? ==>
              CallsIn(surface.handed[|old(surface.handed)|..]) == Asked(messages.items[|old(messages.items)|..])
    ensures Rounds(messages.items[|old(messages.items)|..]) <= if end.Replied? then maxRounds else maxRounds + 1
    ensures end.Replied? ==>
              && Grew(old(messages.items), messages.items)
              && |messages.items| > |old(messages.items)|
              && messages.items[|messages.items|-1].role == Assistant
              && messages.items[|messages.items|-1].toolCalls == []
  {
    hide CallsIn, Asked, Rounds, Labelled, Tainted, AllPermitted, AllProposable, Tracker;
    ghost var before := messages.items;
    NothingYet(surface, before);
    assert surface.handed[|surface.handed|..] == [] && surface.ran[|surface.ran|..] == []
           && surface.staged[|surface.staged|..] == [];
    var rounds := 0;
    var derived := Tainted(messages.items);
    while true
      invariant rounds <= maxRounds
      invariant derived == Tracker(surface) == Tainted(messages.items)
      invariant Grew(before, messages.items)
      invariant Behaved(surface)
      invariant old(surface.handed) <= surface.handed
      invariant CallsIn(surface.handed[|old(surface.handed)|..]) == Asked(messages.items[|before|..])
      invariant Rounds(messages.items[|before|..]) == rounds
      decreases maxRounds - rounds
    {
      ghost var items, handed, ran, staged := messages.items, surface.handed, surface.ran, surface.staged;
      var reached, calls := Complete(messages, derived, before);
      if !reached {
        var ours: bool := *;
        return if ours then Failed else Escaped;
      }
      if calls == [] {
        return Replied;
      }
      rounds := rounds + 1;
      if rounds > maxRounds {
        return Failed;
      }
      var completed;
      derived, completed := RunCalls(messages, surface, calls, derived, |before|);
      HandedMore(old(surface.handed), handed, surface.handed);
      PermittedMore(surface, old(surface.ran), ran, surface.ran);
      ProposableMore(surface, old(surface.staged), staged, surface.staged);
      if !completed {
        return Failed;
      }
      GrewByExchange(before, items, messages.items);
    }
  }

  /** One completion, appended as an assistant message. */
  method Complete(messages: MessageList, derived: bool, ghost before: seq<Message>)
    returns (reached: bool, calls: seq<ToolCall>)
    requires derived == Tainted(messages.items) && Grew(before, messages.items)
    modifies messages
    ensures !reached ==> messages.items == old(messages.items)
    ensures reached ==>
              && |messages.items| == |old(messages.items)| + 1 && old(messages.items) <= messages.items
              && messages.items[|old(messages.items)|].role == Assistant
              && messages.items[|old(messages.items)|].toolCalls == calls
    ensures derived == Tainted(messages.items) && Labelled(messages.items, |before|)
    ensures reached && calls == [] ==> Grew(before, messages.items)
    ensures reached ==>
              && Asked(messages.items[|before|..]) == Asked(old(messages.items)[|before|..]) + calls
              && Rounds(messages.items[|before|..]) ==
                   Rounds(old(messages.items)[|before|..]) + if calls == [] then 0 else 1
  {
    var spoken: string, now: Time;
    reached, spoken, calls, now := *, *, *, *;
    if reached {
      var assistant := Message(Assistant, spoken, calls, None, derived, Some(now));
      TaintGrows(messages.items, assistant);
      LabelsStay(messages.items, assistant, |before|);
      AskedMore(messages.items, |before|, assistant);
      RoundsMore(messages.items, |before|, assistant);
      if calls == [] {
        GrewByReply(before, messages.items, assistant);
      }
      messages.items := messages.items + [assistant];
    }
  }

  lemma AnswersMakeDialogue(s: seq<Message>)
    requires s != [] && IsCall(s[0]) && Answers(s[1..], s[0].toolCalls)
    ensures Dialogue(s)
  {
    var n := |s[0].toolCalls|;
    assert s[1..n+1] == s[1..] && s[n+1..] == [];
  }

  lemma PermittedMore(surface: BoundSurface, a: seq<Ran>, b: seq<Ran>, c: seq<Ran>)
    requires a <= b <= c && AllPermitted(surface, b[|a|..]) && AllPermitted(surface, c[|b|..])
    ensures AllPermitted(surface, c[|a|..])
  {
    assert c[|a|..] == b[|a|..] + c[|b|..];
  }

  lemma ProposableMore(surface: BoundSurface, a: seq<ToolCall>, b: seq<ToolCall>, c: seq<ToolCall>)
    requires a <= b <= c && AllProposable(surface, b[|a|..]) && AllProposable(surface, c[|b|..])
    ensures AllProposable(surface, c[|a|..])
  {
    assert c[|a|..] == b[|a|..] + c[|b|..];
  }

  /** These calls were given to the boundary, and these results, one a call, are what it answered. */
  predicate Exchanged(results: seq<Message>, handed: seq<Handed>, calls: seq<ToolCall>) {
    && CallsIn(handed) == calls && Answers(results, calls)
    && forall i :: 0 <= i < |results| ==>
         results[i].content == handed[i].result.content && results[i].untrusted == handed[i].result.untrusted
  }

  lemma ExchangedMore(results: seq<Message>, handed: seq<Handed>, calls: seq<ToolCall>, m: Message, h: Handed)
    requires Exchanged(results, handed, calls)
    requires m.role == Tool && m.toolCallId == Some(h.call.id) && h.result == ToolResult(m.content, m.untrusted)
    ensures Exchanged(results + [m], handed + [h], calls + [h.call])
  {
  }

  /** Answer one call. */
  method RunCall(messages: MessageList, surface: BoundSurface, call: ToolCall, derivedBefore: bool, ghost start: nat)
    returns (derived: bool)
    requires derivedBefore == Tracker(surface) == Tainted(messages.items)
    requires |messages.items| >= start && Labelled(messages.items, start)
    modifies messages, surface, surface.scope
    ensures derived == Tracker(surface) == Tainted(messages.items) && Labelled(messages.items, start)
    ensures |messages.items| == |old(messages.items)| + 1 && old(messages.items) <= messages.items
    ensures var m := messages.items[|old(messages.items)|];
            && surface.handed == old(surface.handed) + [Handed(call, ToolResult(m.content, m.untrusted))]
            && m.role == Tool && m.toolCallId == Some(call.id)
    ensures Behaved(surface)
    ensures Asked(messages.items[start..]) == Asked(old(messages.items)[start..])
    ensures Rounds(messages.items[start..]) == Rounds(old(messages.items)[start..])
  {
    hide Asked, Rounds, Labelled, Tainted;
    var result := surface.Execute(call);
    derived := derivedBefore || result.untrusted;
    var now: Time := *;
    var answer := Message(Tool, result.content, [], Some(call.id), result.untrusted, Some(now));
    TaintGrows(messages.items, answer);
    LabelsStay(messages.items, answer, start);
    AskedMore(messages.items, start, answer);
    RoundsMore(messages.items, start, answer);
    messages.items := messages.items + [answer];
  }

  /** Answer every call of one assistant message, in order. */
  method RunCalls(messages: MessageList, surface: BoundSurface, calls: seq<ToolCall>, derivedBefore: bool,
                  ghost start: nat)
    returns (derived: bool, completed: bool)
    requires derivedBefore == Tracker(surface) == Tainted(messages.items)
    requires |messages.items| >= start && Labelled(messages.items, start)
    modifies messages, surface, surface.scope
    ensures derived == Tracker(surface) == Tainted(messages.items)
    ensures old(messages.items) <= messages.items && Labelled(messages.items, start)
    ensures old(surface.handed) <= surface.handed
    ensures exists done :: done <= calls
              && Exchanged(messages.items[|old(messages.items)|..], surface.handed[|old(surface.handed)|..], done)
    ensures completed ==>
              Exchanged(messages.items[|old(messages.items)|..], surface.handed[|old(surface.handed)|..], calls)
    ensures Behaved(surface)
    ensures Asked(messages.items[start..]) == Asked(old(messages.items)[start..])
    ensures Rounds(messages.items[start..]) == Rounds(old(messages.items)[start..])
  {
    hide Asked, Rounds, Labelled, Tainted, Exchanged, AllPermitted, AllProposable, Tracker, CallsIn;
    derived, completed := derivedBefore, true;
    ghost var before, results, handed := messages.items, messages.items[|messages.items|..], surface.handed;
    NothingYet(surface, messages.items);
    assert surface.handed[|handed|..] == [] && surface.ran[|surface.ran|..] == []
           && surface.staged[|surface.staged|..] == [];
    for i := 0 to |calls|
      invariant completed && derived == Tracker(surface) == Tainted(messages.items)
      invariant before <= messages.items && Labelled(messages.items, start) && handed <= surface.handed
      invariant Exchanged(messages.items[|before|..], surface.handed[|handed|..], calls[..i])
      invariant Behaved(surface)
      invariant Asked(messages.items[start..]) == Asked(before[start..])
      invariant Rounds(messages.items[start..]) == Rounds(before[start..])
    {
      // Checking a call before staging it reads the job table, and that read may fail.
      var unreadable: bool := *;
      if unreadable {
        return derived, false;
      }
      ghost var items, given, ran, staged := messages.items, surface.handed, surface.ran, surface.staged;
      derived := RunCall(messages, surface, calls[i], derived, start);
      ExchangedMore(items[|before|..], given[|handed|..], calls[..i], messages.items[|items|], surface.handed[|given|]);
      assert messages.items[|before|..] == items[|before|..] + [messages.items[|items|]];
      assert surface.handed[|handed|..] == given[|handed|..] + [surface.handed[|given|]];
      assert calls[..i+1] == calls[..i] + [calls[i]];
      PermittedMore(surface, old(surface.ran), ran, surface.ran);
      ProposableMore(surface, old(surface.staged), staged, surface.staged);
    }
    assert calls[..|calls|] == calls;
  }

  lemma NothingYet(surface: BoundSurface, items: seq<Message>)
    ensures Exchanged([], [], []) && CallsIn([]) == [] && Asked([]) == [] && Rounds([]) == 0
    ensures AllPermitted(surface, []) && AllProposable(surface, [])
    ensures items[|items|..] == [] && Labelled(items, |items|) && Grew(items, items)
  {
  }

  /** The choices a background run leaves to the model: when it answers nothing, it is asked to look once more. */
  method ReportRun(stored: seq<Message>, surface: BoundSurface, prompt: string, maxRounds: nat)
    returns (end: TurnEnd, untrusted: bool, scratch: MessageList)
    requires surface.reportOnly && !surface.fetchedUntrusted && surface.staged == [] && surface.ran == []
    modifies surface, surface.scope
    ensures fresh(scratch) && untrusted == surface.fetchedUntrusted == Tainted(scratch.items)
    ensures T.TrustedFrom(stored, 0) <= scratch.items
    ensures surface.staged == []
    ensures forall i :: 0 <= i < |surface.ran| ==>
              && surface.Permitted(surface.ran[i])
              && !surface.catalog[surface.ran[i].call.name].staging
              && surface.catalog[surface.ran[i].call.name].sink.None? && !("job_" <= surface.ran[i].call.name)
  {
    var kept := T.Build(stored);
    T.NothingUntrustedIsLeft(stored, 0);
    var now: Time, again: bool, nudge: string := *, *, *;
    TaintGrows(kept, Say(User, prompt, false, now));
    scratch := new MessageList(kept + [Say(User, prompt, false, now)]);
    end := RunTurn(scratch, surface, maxRounds);
    if end.Replied? && again {
      TaintGrows(scratch.items, Say(User, nudge, false, now));
      scratch.items := scratch.items + [Say(User, nudge, false, now)];
      end := RunTurn(scratch, surface, maxRounds);
    }
    untrusted := surface.fetchedUntrusted;
  }
}
