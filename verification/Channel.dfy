/**
 One agent's share of the Signal channel: the cached history, the tables behind it, and the live proposal.
 The peer lock keeps this agent's turns and decisions apart; the history lock keeps relay records and job
 reports out of a turn, and is open to them (`OthersAct`) while confirmed calls run.
 */
module Channel {
  import opened Wrappers
  import opened Messages
  import opened Broker
  import opened Turn
  import P = ProposalLog
  import W = Window
  import T = TrustedContext

  type Proposal = P.Proposal

  /** What a save does to the proposal row. */
  datatype Change = Keep | Clear | Put(proposal: Proposal)

  /** What the log says of it. */
  function Entries(change: Change): seq<P.Event> {
    match change
    case Keep => []
    case Clear => [P.Dropped]
    case Put(proposal) => [P.Offered(proposal)]
  }

  /** Nothing was confirmed or run meanwhile: proposals were only offered or dropped. */
  predicate Undecided(before: seq<P.Event>, after: seq<P.Event>) {
    before <= after && forall k :: |before| <= k < |after| ==> after[k].Offered? || after[k].Dropped?
  }

  /** How an operation ended. */
  datatype End =
    | Kept          // saved
    | RolledBack    // the turn failed, or could not be saved, and left no trace
    | Untouched     // the store failed before anything was done, or the proposal had expired
    | Unrecorded    // the calls were run, but the history could not be read to say so
    | Ahead         // the decision was carried out but its summary could not be saved
    | Escaped       // an exception the channel does not catch
    | Died          // the process died meanwhile

  /** One attempt to store a list, or what else moves cache and table apart or together. */
  datatype Write = TurnWrite | SummaryWrite | RecordWrite | ReportWrite

  datatype Mark =
    | Tried(what: Write, saved: bool)
    | Dropped           // the cache was dropped: the process died, or the list was about to be read again
    | Broken            // an exception left a turn half done in the cache

  /** Whether the cache is ahead of the table after these. */
  function Apart(trace: seq<Mark>): bool {
    if trace == [] then false
    else
      match trace[|trace|-1]
      case Tried(what, saved) => !saved && (what.SummaryWrite? || Apart(trace[..|trace|-1]))
      case Dropped => false
      case Broken => true
  }

  lemma ApartStep(trace: seq<Mark>, m: Mark)
    ensures Apart(trace + [m]) ==
              match m
              case Tried(what, saved) => !saved && (what.SummaryWrite? || Apart(trace))
              case Dropped => false
              case Broken => true
  {
    assert (trace + [m])[..|trace|] == trace;
  }

  predicate Parts(m: Mark) { m == Tried(SummaryWrite, false) || m.Broken? }

  /** Any later save, record, report, reload or restart. */
  predicate Mends(m: Mark) { m.Dropped? || (m.Tried? && m.saved) }

  /** Here they part, and nothing later mends it. */
  predicate PartedAt(trace: seq<Mark>, i: nat) {
    i < |trace| && Parts(trace[i]) && forall k :: i < k < |trace| ==> !Mends(trace[k])
  }

  /**
   The cache is ahead exactly when the write of a decision's summary failed, or an uncaught exception broke off a turn,
   and nothing that mends it came after.
   */
  lemma {:induction false} ApartMeans(trace: seq<Mark>)
    ensures Apart(trace) <==> exists i: nat :: PartedAt(trace, i)
  {
    if trace != [] {
      var before, last := trace[..|trace|-1], trace[|trace|-1];
      ApartMeans(before);
      if Parts(last) {
        assert PartedAt(trace, |trace| - 1);
      } else if Mends(last) {
        assert forall i: nat :: i < |trace| - 1 ==> Mends(trace[|trace|-1]) && !PartedAt(trace, i);
      } else {
        assert forall i: nat :: PartedAt(trace, i) <==> PartedAt(before, i);
      }
    }
  }

  /** Nothing here parts cache and table. */
  predicate AllFine(marks: seq<Mark>) { forall i :: 0 <= i < |marks| ==> !Parts(marks[i]) }

  /** No exception broke off a turn. */
  predicate Whole(marks: seq<Mark>) { forall i :: 0 <= i < |marks| ==> !marks[i].Broken? }

  lemma WholeInParts(start: seq<Mark>, before: seq<Mark>, after: seq<Mark>)
    requires start <= before <= after
    ensures Whole(after[|start|..]) <==> Whole(before[|start|..]) && Whole(after[|before|..])
  {
    assert after[|start|..] == before[|start|..] + after[|before|..];
    assert forall i :: 0 <= i < |before[|start|..]| ==> before[|start|..][i] == after[|start|..][i];
    assert forall i :: 0 <= i < |after[|before|..]| ==>
             after[|before|..][i] == after[|start|..][|before| - |start| + i];
  }

  lemma LeavesNothing(trace: seq<Mark>)
    ensures Leaves(Untouched, trace, trace)
  {
  }

  lemma LeavesDropped(before: seq<Mark>, after: seq<Mark>)
    requires before <= after && AllFine(after[|before|..]) && after != before && after[|after|-1] == Dropped
    ensures Leaves(Died, before, after)
  {
  }

  lemma LeavesLater(end: End, start: seq<Mark>, before: seq<Mark>, after: seq<Mark>)
    requires start <= before && AllFine(before[|start|..]) && Leaves(end, before, after) && !end.RolledBack?
    ensures Leaves(end, start, after)
  {
    WholeInParts(start, before, after);
    assert after[|start|..] == before[|start|..] + after[|before|..];
  }

  /** What an operation that ended this way left in the trace. */
  predicate Leaves(end: End, before: seq<Mark>, after: seq<Mark>) {
    && before <= after
    && (!end.Escaped? ==> Whole(after[|before|..]))
    && (end.Untouched? ==> AllFine(after[|before|..]))
    && (end.RolledBack? ==> after == before || after == before + [Tried(TurnWrite, false)])
    && (end.Kept? || end.Ahead? || end.Escaped? || end.Died? || end.Unrecorded? ==>
          && after != before
          && var last := after[|after|-1];
             if end.Kept? then last.Tried? && last.saved
             else if end.Ahead? then last == Tried(SummaryWrite, false)
             else if end.Escaped? then last == Broken
             else last == Dropped)
  }

  predicate NoSystem(s: seq<Message>) { forall i :: 0 <= i < |s| ==> s[i].role != System }

  /** A list as the channel keeps it: the system message, and no other. */
  predicate Headed(s: seq<Message>) { s != [] && s[0].role == System && NoSystem(s[1..]) }

  function Prompt(text: string): Message { Message(System, text, [], None, false, None) }

  function Persisted(s: seq<Message>): seq<Message> {
    if s == [] then []
    else (if s[0].role == System then [] else [s[0]]) + Persisted(s[1..])
  }

  lemma {:induction false} DialogueHasNoSystem(s: seq<Message>, i: nat)
    requires Dialogue(s) && i < |s|
    ensures s[i].role != System
    decreases |s|
  {
    var n := if IsCall(s[0]) then |s[0].toolCalls| + 1 else 1;
    if 0 < i < n {
      assert s[1..n][i-1] == s[i];
    } else if i >= n {
      DialogueHasNoSystem(s[n..], i - n);
    }
  }

  lemma {:induction false} PersistedWhole(s: seq<Message>)
    requires NoSystem(s)
    ensures Persisted(s) == s
    decreases |s|
  {
    if s != [] {
      PersistedWhole(s[1..]);
    }
  }

  lemma {:induction false} LastIsPersisted(s: seq<Message>)
    requires s != [] && s[|s|-1].role != System
    ensures Persisted(s) != [] && Persisted(s)[|Persisted(s)|-1] == s[|s|-1]
    decreases |s|
  {
    if |s| > 1 {
      LastIsPersisted(s[1..]);
    } else {
      assert Persisted(s[1..]) == [];
    }
  }

  lemma CutKeepsHead(s: seq<Message>, cut: nat)
    requires Headed(s) && 1 <= cut <= |s|
    ensures Headed(W.Without(s, cut))
  {
    assert W.Without(s, cut)[1..] == s[cut..] == s[1..][cut-1..];
  }

  /** A bounded list is saved as it is, system message aside. */
  lemma SavedWhole(s: seq<Message>, keep: nat, cutoff: Time)
    requires Headed(s)
    ensures var w := W.Windowed(s, keep, cutoff); Headed(w) && w[0] == s[0] && Persisted(w) == w[1..]
  {
    var fresh_ := W.Fresh(s, cutoff);
    if |s| > 1 {
      CutKeepsHead(s, W.PastTools(s, W.FirstRecent(s, 1, cutoff)));
    }
    if |fresh_| > keep + 1 {
      CutKeepsHead(fresh_, W.PastTools(fresh_, |fresh_| - keep));
    }
    PersistedWhole(W.Windowed(s, keep, cutoff)[1..]);
  }

  lemma PlainKeepsDialogue(s: seq<Message>, m: Message)
    requires IsPlain(m)
    ensures Dialogue(s) ==> Dialogue(s + [m])
  {
    if Dialogue(s) {
      T.DialogueJoins(s, [m]);
    }
  }

  lemma StillTainted(before: seq<Message>, after: seq<Message>)
    requires |before| <= |after| && before == after[..|before|]
    ensures Tainted(before) ==> Tainted(after)
  {
    if Tainted(before) {
      var i :| 0 <= i < |before| && before[i].untrusted;
      assert after[i] == before[i];
    }
  }

  /** What is said about the calls that wait: nothing when there are none, else one message with this label. */
  predicate NoteOn(note: seq<Message>, staged: seq<ToolCall>, tainted: bool, at: Time) {
    if staged == [] then note == []
    else
      && |note| == 1 && note[0].role == Assistant && note[0].toolCalls == []
      && note[0].untrusted == tainted && note[0].createdAt == Some(at)
  }

  lemma TurnAdded(before: seq<Message>, said: string, items: seq<Message>, reply: string, note: seq<Message>)
    requires |before| + 1 < |items| && items[..|before|] == before
    requires items[|before|].role == User && items[|before|].content == said && items[|before|].toolCalls == []
    requires !items[|before|].untrusted
    ensures var turn := Reworded(items, reply)[|before|..] + note;
            Opens(turn, said) && Reworded(items, reply) + note == before + turn
  {
    assert Reworded(items, reply)[..|before|] == before;
    assert Reworded(items, reply) == before + Reworded(items, reply)[|before|..];
  }

  /** What a person said and what was answered. */
  function Spoken(said: string, answer: string, untrusted: bool, at: Time): seq<Message> {
    [Message(User, said, [], None, false, Some(at)), Message(Assistant, answer, [], None, untrusted, Some(at))]
  }

  /** A turn begins with what the person said, word for word and trusted, and something follows. */
  predicate Opens(turn: seq<Message>, said: string) {
    && |turn| > 1 && turn[0].role == User && turn[0].content == said && turn[0].toolCalls == []
    && !turn[0].untrusted
  }

  lemma NoteGoesOn(s: seq<Message>, note: Message)
    requires Headed(s) && IsPlain(note)
    ensures Headed(s + [note]) && (Conversation(s) ==> Conversation(s + [note]))
  {
    HeadedGoesOn(s, [note]);
    PlainKeepsDialogue(s[1..], note);
  }

  lemma TurnKeepsHead(before: seq<Message>, question: Message, after: seq<Message>)
    requires Headed(before) && before + [question] <= after && question.role != System
    requires Labelled(after, |before| + 1)
    ensures Headed(after)
  {
    assert after == before + after[|before|..] && after[|before|] == question;
    HeadedGoesOn(before, after[|before|..]);
  }

  lemma HeadedGoesOn(s: seq<Message>, more: seq<Message>)
    requires Headed(s) && NoSystem(more)
    ensures Headed(s + more) && (s + more)[1..] == s[1..] + more
  {
  }

  lemma ReplyMayBeReworded(s: seq<Message>, reply: string)
    requires |s| > 1 && IsPlain(s[|s|-1])
    ensures Conversation(s) ==> Conversation(Reworded(s, reply))
    ensures Headed(s) ==> Headed(Reworded(s, reply))
  {
    if Conversation(s) {
      LastMayBeReworded(s[1..], reply);
      assert (s[..|s|-1] + [s[|s|-1].(content := reply)])[1..] == s[1..][..|s|-2] + [s[|s|-1].(content := reply)];
    }
  }

  lemma ResultsAreTools(s: seq<Message>, i: nat)
    requires Dialogue(s) && s != [] && IsCall(s[0]) && 1 <= i <= |s[0].toolCalls|
    ensures i < |s| && s[i].role == Tool
  {
    assert s[1..|s[0].toolCalls|+1][i-1] == s[i];
  }

  lemma {:induction false} LastMayBeReworded(s: seq<Message>, reply: string)
    requires s != [] && IsPlain(s[|s|-1]) && Dialogue(s)
    ensures Dialogue(s[..|s|-1] + [s[|s|-1].(content := reply)])
    decreases |s|
  {
    var last := |s| - 1;
    var m := s[last].(content := reply);
    var n := if IsCall(s[0]) then |s[0].toolCalls| + 1 else 1;
    assert n <= |s|;
    forall i | 1 <= i < n ensures s[i].role == Tool {
      ResultsAreTools(s, i);
    }
    if n <= last {
      LastMayBeReworded(s[n..], reply);
      assert (s[..last] + [m])[n..] == s[n..][..last-n] + [m];
      assert (s[..last] + [m])[1..n] == s[1..n];
    } else {
      assert last == 0;
      assert (s[..last] + [m])[1..] == [];
    }
  }

  /** The last message says something else. */
  function Reworded(s: seq<Message>, reply: string): seq<Message>
    requires s != []
  {
    s[..|s|-1] + [s[|s|-1].(content := reply)]
  }

  /** The conversation, the question, and what the turn added make a conversation again. */
  lemma TurnKeepsConversation(before: seq<Message>, after: seq<Message>)
    requires |after| > |before| && before <= after && IsPlain(after[|before|]) && Dialogue(after[|before|+1..])
    ensures Conversation(before) ==> Conversation(after)
  {
    if Conversation(before) {
      PlainKeepsDialogue(before[1..], after[|before|]);
      T.DialogueJoins(before[1..] + [after[|before|]], after[|before|+1..]);
      assert after[1..] == before[1..] + [after[|before|]] + after[|before|+1..];
    }
  }

  class Channel {
    const catalog: map<string, ToolMeta>
    const deniedSinks: set<string>
    const agent: Agent
    const reader: Reader
    const maxRounds: nat
    const keep: nat
    const maxAge: real
    const proposalLife: real
    const fate: nat -> bool    // whether the n-th access to the store works

    var cache: MessageList?
    var stored: seq<Message>
    var proposal: Option<Proposal>
    var nextSerial: nat
    var clock: Time
    var accesses: nat

    ghost var log: seq<P.Event>
    ghost var trace: seq<Mark>

    constructor (catalog: map<string, ToolMeta>, deniedSinks: set<string>, agent: Agent, reader: Reader,
                 maxRounds: nat, keep: nat, maxAge: real, proposalLife: real, fate: nat -> bool, clock: Time)
      ensures Valid() && Sound() && cache == null && stored == [] && proposal == None && trace == [] && accesses == 0
      ensures this.fate == fate && this.catalog == catalog && this.agent == agent
    {
      this.catalog, this.deniedSinks, this.agent, this.reader := catalog, deniedSinks, agent, reader;
      this.maxRounds, this.keep, this.maxAge, this.proposalLife := maxRounds, keep, maxAge, proposalLife;
      this.fate, this.clock, accesses := fate, clock, 0;
      cache, stored, proposal, nextSerial, log, trace := null, [], None, 0, [], [];
    }

    /** Calls this agent may have run on a yes. */
    predicate Offerable(calls: seq<ToolCall>) {
      forall i :: 0 <= i < |calls| ==>
        && calls[i].name in catalog && catalog[calls[i].name].staging && calls[i].name in agent.tools
        && (catalog[calls[i].name].web ==> agent.webAccess)
    }

    /** The proposal row is the one the log says is on the table. */
    ghost predicate Tabled()
      reads this
    {
      && P.Safe(log) && P.TableOf(log).live == proposal && P.TableOf(log).next <= nextSerial
      && (proposal.Some? ==> Offerable(proposal.value.calls))
    }

    /** The history as this process has it: the cached one, or what is stored. */
    ghost function Held(): seq<Message>
      reads this, cache
    {
      if cache == null || cache.items == [] then stored else cache.items[1..]
    }

    /** A history as it was, or what the window leaves of it now. */
    ghost predicate Aged(was: seq<Message>, aged: seq<Message>)
      reads this`clock
    {
      || aged == was
      || exists prompt :: aged == Persisted(W.Windowed([Prompt(prompt)] + was, keep, clock - maxAge))
    }

    /** What is stored is that history with these messages after it, as the window leaves it. */
    ghost predicate Added(was: seq<Message>, more: seq<Message>)
      reads this`stored, this`clock
    {
      exists head: Message, aged: seq<Message> ::
        && head.role == System && Aged(was, aged)
        && stored == Persisted(W.Windowed([head] + aged + more, keep, clock - maxAge))
    }

    /** The window has room for one message at least, as the settings demand. */
    predicate Roomy() { keep > 0 && maxAge > 0.0 }

    /** What was added last is there, whatever else the window left. */
    lemma NewestIsStored(was: seq<Message>, more: seq<Message>)
      requires Added(was, more) && more != [] && Roomy() && NoSystem(stored)
      requires more[|more|-1].createdAt == Some(clock) && more[|more|-1].role in {User, Assistant}
      ensures stored != [] && stored[|stored|-1] == more[|more|-1]
    {
      hide W.Windowed, Persisted, NoSystem, Aged;
      var head: Message, aged :| head.role == System && Aged(was, aged)
                        && stored == Persisted(W.Windowed([head] + aged + more, keep, clock - maxAge));
      var s := [head] + aged + more;
      W.WindowKeepsTheNewest(s, keep, clock - maxAge);
      LastIsPersisted(W.Windowed(s, keep, clock - maxAge));
    }

    /** The cache is absent or says what the table says. */
    ghost predicate Agrees()
      reads this, cache
    {
      cache != null ==> cache.items != [] && cache.items[1..] == stored
    }

    /** Cache and table agree but for what the trace says, and then the cache is ahead. */
    ghost predicate Tracked()
      reads this, cache
    {
      && NoSystem(stored) && (cache != null ==> Headed(cache.items))
      && (if Apart(trace) then cache != null && |cache.items| - 1 > |stored| else Agrees())
    }

    ghost predicate Valid()
      reads this, cache
    {
      Tabled() && Tracked()
    }

    /** What is stored is a dialogue, and the cache, when there is one, is a conversation. */
    ghost predicate Sound()
      reads this, cache
    {
      Dialogue(stored) && (cache != null ==> Conversation(cache.items))
    }

    twostate predicate SameCache()
      reads this
    {
      cache == old(cache) || cache == null || fresh(cache)
    }

    /** What is stored is as it was, or what the window leaves of it now. */
    ghost predicate OnlyAged(was: seq<Message>)
      reads this`stored, this`clock
    {
      Aged(was, stored)
    }

    /** A new proposal, good from now on for its life, of calls that wait for a yes. */
    ghost predicate Offers(serial: nat)
      reads this
    {
      && proposal.Some? && proposal.value.serial == serial && proposal.value.expiresAt == clock + proposalLife
      && proposal.value.calls != [] && Offerable(proposal.value.calls)
    }

    ghost method Log(e: P.Event)
      requires P.Safe(log) && P.Allowed(P.TableOf(log), e)
      modifies this`log
      ensures log == old(log) + [e] && P.Safe(log) && P.TableOf(log) == P.Note(P.TableOf(old(log)), e)
    {
      P.Extend(log, e);
      log := log + [e];
    }

    ghost method Note(m: Mark)
      modifies this`trace
      ensures trace == old(trace) + [m]
      ensures m.Tried? ==> Apart(trace) == (!m.saved && (m.what.SummaryWrite? || Apart(old(trace))))
      ensures !m.Tried? ==> Apart(trace) == m.Broken?
    {
      ApartStep(trace, m);
      trace := trace + [m];
    }

    /** One access to the store. */
    method Reach() returns (works: bool)
      modifies this`accesses
      ensures works == fate(old(accesses)) && accesses == old(accesses) + 1
    {
      works := fate(accesses);
      accesses := accesses + 1;
    }

    /** Write history and perhaps the proposal, in one transaction. */
    method Persist(messages: seq<Message>, change: Change) returns (saved: bool)
      requires Tabled() && (change.Put? ==> change.proposal.serial == nextSerial)
      requires change.Put? ==> Offerable(change.proposal.calls)
      modifies this`stored, this`proposal, this`nextSerial, this`log, this`accesses
      ensures Tabled() && saved == fate(old(accesses)) && accesses == old(accesses) + 1
      ensures stored == if saved then Persisted(messages) else old(stored)
      ensures proposal ==
                if !saved || change.Keep? then old(proposal) else if change.Put? then Some(change.proposal) else None
      ensures log == old(log) + if saved then Entries(change) else []
      ensures nextSerial == old(nextSerial) + if saved && change.Put? then 1 else 0
    {
      hide Persisted, P.Safe, P.TableOf;
      saved := Reach();
      if saved {
        stored := Persisted(messages);
        if change.Put? {
          Log(P.Offered(change.proposal));
          proposal, nextSerial := Some(change.proposal), nextSerial + 1;
        } else if change.Clear? {
          Log(P.Dropped);
          proposal := None;
        }
      }
    }

    method WindowAndPersist(messages: MessageList, change: Change, ghost what: Write) returns (saved: bool)
      requires Tabled() && Headed(messages.items) && (change.Put? ==> change.proposal.serial == nextSerial)
      requires change.Put? ==> Offerable(change.proposal.calls)
      modifies messages, this`stored, this`proposal, this`nextSerial, this`log, this`accesses, this`trace
      ensures Tabled() && saved == fate(old(accesses)) && accesses == old(accesses) + 1
      ensures Headed(messages.items)
      ensures messages.items ==
                if saved then W.Windowed(old(messages.items), keep, clock - maxAge) else old(messages.items)
      ensures stored == if saved then Persisted(messages.items) else old(stored)
      ensures saved ==> stored == messages.items[1..]
      ensures proposal ==
                if !saved || change.Keep? then old(proposal) else if change.Put? then Some(change.proposal) else None
      ensures log == old(log) + if saved then Entries(change) else []
      ensures nextSerial == old(nextSerial) + if saved && change.Put? then 1 else 0
      ensures trace == old(trace) + [Tried(what, saved)]
      ensures Apart(trace) == (!saved && (what.SummaryWrite? || Apart(old(trace))))
      ensures Conversation(old(messages.items)) ==> Conversation(messages.items) && (saved ==> Dialogue(stored))
    {
      hide W.Windowed, Dialogue, Persisted, NoSystem, Apart, P.Safe, P.TableOf;
      ghost var before := messages.items;
      var windowed := new MessageList(messages.items);
      W.ApplyWindow(windowed, keep, maxAge, clock);
      saved := Persist(windowed.items, change);
      Note(Tried(what, saved));
      SavedWhole(before, keep, clock - maxAge);
      if saved {
        messages.items := windowed.items;
        if Conversation(before) {
          W.WindowKeepsTheGrammar(before, keep, clock - maxAge);
        }
      }
    }

    /** The agent's list, from the cache or from the table; null when the table cannot be read. */
    method History(prompt: string) returns (messages: MessageList?)
      requires Valid()
      modifies this`cache, this`stored, this`accesses, cache
      ensures Valid() && messages == cache && (messages != null ==> fresh(messages) || messages == old(cache))
      ensures messages == null <==> old(cache) == null && !fate(old(accesses))
      ensures messages == null ==> stored == old(stored)
      ensures old(cache) == null ==> accesses > old(accesses)
      ensures old(cache) != null ==>
                stored == old(stored) && accesses == old(accesses) && messages.items[1..] == old(cache.items[1..])
      ensures OnlyAged(old(stored))
      ensures messages != null ==> Headed(messages.items) && Aged(old(Held()), messages.items[1..])
      ensures old(Sound()) ==> Sound()
    {
      hide W.Windowed, Dialogue, Persisted, NoSystem, P.Safe, P.TableOf;
      if cache == null {
        var readable := Reach();
        if !readable {
          return null;
        }
        messages := Load(prompt);
        cache := messages;
      }
      messages := cache;
      ghost var rest := messages.items[1..];
      if messages.items != [] && messages.items[0].role == System {
        messages.items := [messages.items[0].(content := prompt)] + messages.items[1..];
      } else {
        // Every list kept here begins with the system message.
        assert false;
      }
      assert messages.items[1..] == rest;
    }

    /** Read the table, bound what was read, and save the bounded history if that changed it. */
    method Load(prompt: string) returns (messages: MessageList)
      requires NoSystem(stored)
      modifies this`stored, this`accesses
      ensures fresh(messages) && Headed(messages.items) && messages.items[1..] == stored && NoSystem(stored)
      ensures OnlyAged(old(stored)) && accesses >= old(accesses)
      ensures Dialogue(old(stored)) ==> Dialogue(stored)
    {
      hide W.Windowed, Dialogue, Persisted, NoSystem;
      var loaded := [Prompt(prompt)] + stored;
      messages := new MessageList(loaded);
      assert loaded[1..] == stored;
      SavedWhole(loaded, keep, clock - maxAge);
      if Dialogue(stored) {
        W.WindowKeepsTheGrammar(loaded, keep, clock - maxAge);
      }
      var windowed := new MessageList(loaded);
      W.ApplyWindow(windowed, keep, maxAge, clock);
      if |windowed.items| < |loaded| {
        var saved := Reach();
        if saved {
          stored := Persisted(windowed.items);
          messages := windowed;
        }
      }
    }

    // ------------------------------------------------------------------ what others do to this history

    /** Append an untrusted relay record. False when it could not be read or saved. */
    method InjectRelay(record: string, prompt: string) returns (recorded: bool)
      requires Valid()
      modifies this`cache, this`stored, this`proposal, this`nextSerial, this`log, this`accesses, this`trace
      ensures Valid() && proposal == old(proposal) && log == old(log) && nextSerial == old(nextSerial)
      ensures cache == old(cache) || fresh(cache)
      ensures if recorded then !Apart(trace) else cache == old(cache) && stored == old(stored)
      ensures recorded ==>
                Added(old(stored), [Message(User, record, [], None, true, Some(clock))])
      ensures recorded && Roomy() ==> Tainted(stored) && Tainted(Held())
      ensures trace == old(trace) || trace == old(trace) + [Tried(RecordWrite, recorded)]
      ensures old(Sound()) ==> Sound()
      ensures accesses >= old(accesses)
    {
      hide W.Windowed, Dialogue, Persisted, Apart, P.Safe, P.TableOf;
      var readable := Reach();
      if !readable {
        return false;
      }
      var said := Say(User, record, true, clock);
      var messages := new MessageList([Prompt(prompt)] + (stored + [said]));
      assert messages.items[1..] == stored + [said];
      if Dialogue(stored) {
        PlainKeepsDialogue(stored, said);
      }
      assert [Prompt(prompt)] + (stored + [said]) == [Prompt(prompt)] + stored + [said];
      recorded := WindowAndPersist(messages, Keep, RecordWrite);
      if recorded {
        cache := messages;
        assert Aged(old(stored), old(stored)) && Added(old(stored), [said]);
        if Roomy() {
          NewestIsStored(old(stored), [said]);
          assert cache.items[1..] == stored;
        }
      }
    }

    /** Append a job report that already went out. A failed save must not leave it in the cache. */
    method PersistJobReport(text: string, untrusted: bool, prompt: string) returns (saved: bool)
      requires Valid()
      modifies this`cache, this`stored, this`proposal, this`nextSerial, this`log, this`accesses, this`trace
      ensures Valid() && proposal == old(proposal) && log == old(log) && nextSerial == old(nextSerial)
      ensures cache == null || fresh(cache)
      ensures !Apart(trace) && old(trace) <= trace && AllFine(trace[|old(trace)|..])
      ensures !saved ==> cache == null && OnlyAged(old(stored))
      ensures saved ==> Added(old(stored), [Message(Assistant, text, [], None, untrusted, Some(clock))])
      ensures saved && untrusted && Roomy() ==> Tainted(stored) && Tainted(Held())
      ensures old(Sound()) ==> Sound()
      ensures accesses >= old(accesses)
    {
      hide W.Windowed, Dialogue, Persisted, Apart, P.Safe, P.TableOf, OnlyAged, Aged, NoSystem;
      Restart();
      var messages := History(prompt);
      if messages == null {
        return false;
      }
      var report := Say(Assistant, text, untrusted, clock);
      NoteGoesOn(messages.items, report);
      ghost var before := messages.items;
      messages.items := messages.items + [report];
      ghost var aged := stored;
      saved := WindowAndPersist(messages, Keep, ReportWrite);
      if !saved {
        Restart();
        StillAged(old(stored), aged);
      } else {
        IsAdded(old(stored), before, [report]);
        if untrusted && Roomy() {
          NewestIsStored(old(stored), [report]);
        }
      }
    }

    lemma IsAdded(was: seq<Message>, before: seq<Message>, more: seq<Message>)
      requires Headed(before) && Aged(was, before[1..])
      requires stored == Persisted(W.Windowed(before + more, keep, clock - maxAge))
      ensures Added(was, more)
    {
      hide W.Windowed, Persisted, NoSystem, Aged;
      assert [before[0]] + before[1..] + more == before + more;
    }

    lemma StillAged(was: seq<Message>, aged: seq<Message>)
      requires OnlyAged(was) && stored == aged
      ensures OnlyAged(was)
    {
    }

    /** Relay records, job reports and the loads of job runs, while this agent's history lock is free. */
    method OthersAct()
      requires Valid()
      modifies this`cache, this`stored, this`proposal, this`nextSerial, this`log, this`clock, this`accesses,
        this`trace, cache
      ensures Valid() && proposal == old(proposal) && log == old(log) && nextSerial == old(nextSerial)
      ensures SameCache() && old(trace) <= trace && AllFine(trace[|old(trace)|..])
      ensures old(Sound()) ==> Sound()
      ensures accesses >= old(accesses)
    {
      hide W.Windowed, Dialogue, Persisted, Apart, P.Safe, P.TableOf, OnlyAged, Aged;
      var steps: nat := *;
      while steps > 0
        invariant Valid() && proposal == old(proposal) && log == old(log) && nextSerial == old(nextSerial)
        invariant SameCache() && old(trace) <= trace && AllFine(trace[|old(trace)|..]) && accesses >= old(accesses)
        invariant old(Sound()) ==> Sound()
      {
        steps := steps - 1;
        var what: nat, text: string, untrusted: bool, prompt: string, wait: real := *, *, *, *, *;
        if what == 0 {
          var _ := InjectRelay(text, prompt);
        } else if what == 1 {
          var _ := PersistJobReport(text, untrusted, prompt);
        } else {
          var _ := History(prompt);
        }
        if wait >= 0.0 {
          clock := clock + wait;
        }
      }
    }

    /** The cache is gone: the process died, or the list is about to be read again. */
    method Restart()
      requires Tabled() && NoSystem(stored)
      modifies this`cache, this`trace
      ensures Valid() && cache == null && trace == old(trace) + [Dropped] && !Apart(trace)
      ensures Dialogue(stored) ==> Sound()
    {
      hide Dialogue, NoSystem, Apart, P.Safe, P.TableOf;
      cache := null;
      Note(Dropped);
    }

    // ------------------------------------------------------------------ a turn

    /** An older proposal must not stay confirmable when its replacement could not be saved. */
    method AbandonLiveProposal()
      requires Tabled()
      modifies this`proposal, this`log, this`accesses
      ensures Tabled() && proposal == if fate(old(accesses)) then None else old(proposal)
      ensures Undecided(old(log), log)
    {
      var cleared := Reach();
      if cleared {
        Log(P.Dropped);
        proposal := None;
      }
    }

    /** A message that decides nothing: the model answers, perhaps with calls that wait for a yes. */
    method Converse(said: string, prompt: string) returns (end: End)
      requires Valid()
      modifies this`cache, this`stored, this`proposal, this`nextSerial, this`log, this`accesses, this`trace, cache
      ensures Valid() && SameCache() && !end.Ahead? && !end.Unrecorded?
      ensures Leaves(end, old(trace), trace)
      ensures old(Sound()) && !end.Escaped? ==> Sound()
      ensures end.Untouched? <==> old(cache) == null && !fate(old(accesses))
      ensures !end.Kept? ==> OnlyAged(old(stored)) && (proposal == old(proposal) || proposal == None)
      ensures end.Kept? ==> proposal == old(proposal) || Offers(old(nextSerial))
      ensures Undecided(old(log), log)
      ensures end.Kept? ==> exists turn :: Added(old(Held()), turn) && Opens(turn, said)
    {
      hide W.Windowed, Dialogue, Persisted, NoSystem, Apart, P.Safe, P.TableOf, OnlyAged, Aged, Offers, Leaves,
        Conversation;
      var messages := History(prompt);
      if messages == null {
        LeavesNothing(trace);
        return Untouched;
      }
      ghost var aged, before := stored, messages.items;
      end := TakeTurn(messages, said);
      if !end.Kept? {
        StillAged(old(stored), aged);
      } else {
        ghost var turn :| Opens(turn, said) && stored == Persisted(W.Windowed(before + turn, keep, clock - maxAge));
        IsAdded(old(Held()), before, turn);
      }
    }

    /** The turn over the list, and what becomes of it. */
    method TakeTurn(messages: MessageList, said: string) returns (end: End)
      requires Valid() && cache == messages
      modifies this`cache, this`stored, this`proposal, this`nextSerial, this`log, this`accesses, this`trace, messages
      ensures Valid() && SameCache() && (end.Kept? || end.RolledBack? || end.Escaped? || end.Died?)
      ensures Leaves(end, old(trace), trace)
      ensures old(Sound()) && !end.Escaped? ==> Sound()
      ensures end.RolledBack? ==> messages.items == old(messages.items)
      ensures !end.Kept? ==> stored == old(stored) && (proposal == old(proposal) || proposal == None)
      ensures end.Kept? ==> proposal == old(proposal) || Offers(old(nextSerial))
      ensures Undecided(old(log), log)
      ensures end.Kept? && proposal != old(proposal) && Tainted(old(messages.items)) ==> proposal.value.tainted
      ensures end.Kept? ==>
                exists turn ::
                  Opens(turn, said)
                  && stored == Persisted(W.Windowed(old(messages.items) + turn, keep, clock - maxAge))
    {
      hide W.Windowed, Dialogue, Persisted, NoSystem, KeptAs, Apart, P.Safe, P.TableOf, Conversation, AllProposable,
        Offers, NoteOn, Reworded, Opens, Tainted;
      ghost var before := messages.items;
      var turn, surface, baseline := Ask(messages, said);
      var dies: bool := *;
      if dies {
        Restart();
        return Died;
      }
      if turn.Escaped? {
        Note(Broken);
        return End.Escaped;
      }
      if turn.Failed? {
        messages.items := messages.items[..baseline];
        return RolledBack;
      }
      ghost var asked, staged, tainted := messages.items, surface.staged, surface.scope.tainted;
      StillTainted(before, asked);
      end := Settle(messages, surface, baseline);
      if end.Kept? {
        ghost var reply: string, note :| KeptAs(asked, reply, note) && NoteOn(note, staged, tainted, clock);
        TurnAdded(before, said, asked, reply, note);
        KeptMeans(asked, reply, note);
      }
    }

    lemma KeptMeans(items: seq<Message>, reply: string, note: seq<Message>)
      requires items != [] && KeptAs(items, reply, note)
      ensures stored == Persisted(W.Windowed(Reworded(items, reply) + note, keep, clock - maxAge))
    {
    }

    /** Put the question to the model. Whatever becomes of the turn, the list only grows. */
    method Ask(messages: MessageList, said: string) returns (turn: TurnEnd, surface: BoundSurface, baseline: nat)
      requires Headed(messages.items)
      modifies messages
      ensures baseline == |old(messages.items)| < |messages.items| && messages.items[..baseline] == old(messages.items)
      ensures messages.items[baseline] == Message(User, said, [], None, false, Some(clock))
      ensures Headed(messages.items) && fresh(surface) && fresh(surface.scope)
      ensures !surface.reportOnly && surface.scope.tainted == Tainted(messages.items)
      ensures turn.Replied? ==> CallsIn(surface.handed) == Asked(messages.items[baseline+1..])
      ensures surface.catalog == catalog && surface.agent == agent && AllProposable(surface, surface.staged)
      ensures turn.Replied? ==>
                && |messages.items| > baseline + 1 && IsPlain(messages.items[|messages.items|-1])
                && (Conversation(old(messages.items)) ==> Conversation(messages.items))
    {
      hide Dialogue, Labelled, NoSystem, AllPermitted, CallsIn, Asked, Rounds, Tainted;
      ghost var before, question := messages.items, Say(User, said, false, clock);
      var scope := new Scope(messages.items);
      surface := new BoundSurface(catalog, deniedSinks, agent, reader, scope, false);
      baseline := |messages.items|;
      TaintGrows(messages.items, question);
      messages.items := messages.items + [Say(User, said, false, clock)];
      turn := RunTurn(messages, surface, maxRounds);
      assert surface.staged[0..] == surface.staged && surface.handed[0..] == surface.handed;
      TurnKeepsHead(before, question, messages.items);
      if turn.Replied? {
        TurnKeepsConversation(before, messages.items);
      }
    }

    /** The turn is stored with this reply and, after it, this note on what it staged. */
    ghost predicate KeptAs(items: seq<Message>, reply: string, note: seq<Message>)
      requires items != []
      reads this`stored, this`clock
    {
      stored == Persisted(W.Windowed(Reworded(items, reply) + note, keep, clock - maxAge))
    }

    lemma StagedAreOfferable(surface: BoundSurface)
      requires surface.catalog == catalog && surface.agent == agent && AllProposable(surface, surface.staged)
      ensures Offerable(surface.staged)
    {
    }

    /** Calls that wait for a yes become a proposal, and the list says so. */
    method NoteStaged(messages: MessageList, staged: seq<ToolCall>, tainted: bool)
      returns (change: Change, ghost notes: seq<Message>)
      requires Headed(messages.items)
      modifies messages
      ensures messages.items == old(messages.items) + notes && NoteOn(notes, staged, tainted, clock)
      ensures Headed(messages.items) && (Conversation(old(messages.items)) ==> Conversation(messages.items))
      ensures change == if staged == [] then Keep
                        else Put(P.Proposal(nextSerial, staged, tainted, clock + proposalLife))
    {
      hide Headed, Conversation;
      change, notes := Keep, [];
      if staged != [] {
        var preview: string := *;
        var note := Say(Assistant, preview, tainted, clock);
        NoteGoesOn(messages.items, note);
        messages.items := messages.items + [note];
        notes := [note];
        change := Put(P.Proposal(nextSerial, staged, tainted, clock + proposalLife));
      }
    }

    /** The model replied: keep the turn and what it staged, or leave no trace of either. */
    method Settle(messages: MessageList, surface: BoundSurface, baseline: nat) returns (end: End)
      requires Tabled() && Headed(messages.items) && cache == messages && 0 < baseline < |messages.items| - 1
      requires IsPlain(messages.items[|messages.items|-1])
      requires surface.catalog == catalog && surface.agent == agent && AllProposable(surface, surface.staged)
      requires surface.scope.tainted == Tainted(messages.items)
      modifies this`stored, this`proposal, this`nextSerial, this`log, this`accesses, this`trace, messages, surface
      ensures Tabled() && (end.Kept? || end.RolledBack?) && end.Kept? == fate(old(accesses))
      ensures trace == old(trace) + [Tried(TurnWrite, end.Kept?)]
      ensures Apart(trace) == (!end.Kept? && Apart(old(trace)))
      ensures end.RolledBack? ==> messages.items == old(messages.items)[..baseline] && stored == old(stored)
      ensures end.RolledBack? ==> proposal == old(proposal) || (proposal == None && old(surface.staged) != [])
      ensures end.RolledBack? ==>
                proposal == if old(surface.staged) != [] && fate(old(accesses) + 1) then None else old(proposal)
      ensures end.Kept? ==>
                proposal == if old(surface.staged) == [] then old(proposal)
                            else Some(P.Proposal(old(nextSerial), old(surface.staged), Tainted(old(messages.items)),
                                                 clock + proposalLife))
      ensures end.Kept? ==> proposal == old(proposal) || Offers(old(nextSerial))
      ensures end.Kept? ==>
                exists reply: string, note: seq<Message> ::
                  && KeptAs(old(messages.items), reply, note)
                  && NoteOn(note, old(surface.staged), Tainted(old(messages.items)), clock)
                  && (old(surface.savedJobIds) == [] ==> reply == old(messages.items)[|old(messages.items)|-1].content)
      ensures Undecided(old(log), log)
      ensures end.Kept? ==> Headed(messages.items) && stored == messages.items[1..]
      ensures end.Kept? && Conversation(old(messages.items)) ==> Conversation(messages.items) && Dialogue(stored)
    {
      hide W.Windowed, Dialogue, Persisted, NoSystem, Apart, P.Safe, P.TableOf, Conversation, Headed, Tainted,
        NoteOn, AllProposable, Offerable;
      ghost var before, said, notes := messages.items, messages.items[|messages.items|-1].content, [];
      var last := |messages.items| - 1;
      if surface.savedJobIds != [] {
        // The time of a saved reminder comes from the server's sentence, not from the model.
        var reply: string := *;
        messages.items := messages.items[..last] + [messages.items[last].(content := reply)];
        said := reply;
      }
      ReplyMayBeReworded(before, said);
      assert messages.items == Reworded(before, said);
      StagedAreOfferable(surface);
      var staged := surface.TakeStaged();
      var change;
      change, notes := NoteStaged(messages, staged, surface.scope.tainted);
      var saved := WindowAndPersist(messages, change, TurnWrite);
      if !saved {
        messages.items := messages.items[..baseline];
        assert messages.items == before[..baseline];
        if staged != [] {
          AbandonLiveProposal();
        }
        return RolledBack;
      }
      assert KeptAs(before, said, notes);
      return Kept;
    }

    // ------------------------------------------------------------------ a yes or a no

    /** Append what was said and what is answered. */
    method Exchange(messages: MessageList, said: string, answer: string, untrusted: bool, change: Change)
      returns (end: End)
      requires Valid() && cache == messages && !change.Put?
      modifies this`stored, this`proposal, this`nextSerial, this`log, this`accesses, this`trace, messages
      ensures Valid() && (end.Kept? || end.Ahead?)
      ensures end.Kept? == fate(old(accesses)) && accesses == old(accesses) + 1
      ensures trace == old(trace) + [Tried(SummaryWrite, end.Kept?)] && Apart(trace) == end.Ahead?
      ensures proposal == if end.Kept? && change.Clear? then None else old(proposal)
      ensures old(Sound()) ==> Sound()
      ensures stored == if end.Ahead? then old(stored)
                        else Persisted(W.Windowed(old(messages.items) + Spoken(said, answer, untrusted, clock), keep,
                                                  clock - maxAge))
      ensures log == old(log) + if end.Kept? then Entries(change) else []
    {
      hide W.Windowed, Dialogue, Persisted, NoSystem, Apart, P.Safe, P.TableOf;
      ghost var before := messages.items;
      var question, reply := Say(User, said, false, clock), Say(Assistant, answer, untrusted, clock);
      NoteGoesOn(before, question);
      NoteGoesOn(before + [question], reply);
      messages.items := messages.items + [question] + [reply];
      assert messages.items == before + Spoken(said, answer, untrusted, clock);
      var saved := WindowAndPersist(messages, change, SummaryWrite);
      end := if saved then Kept else Ahead;
    }

    /** Take the proposal off the table before running it: a second yes must not fire it again. */
    method Consume(said: string, takenAt: Time) returns (cleared: bool)
      requires Tabled() && proposal.Some? && P.ParseDecision(said) == Some(P.Confirm)
      requires takenAt < proposal.value.expiresAt
      modifies this`proposal, this`log, this`accesses
      ensures Tabled() && cleared == fate(old(accesses)) && accesses == old(accesses) + 1
      ensures proposal == if cleared then None else old(proposal)
      ensures !cleared ==> log == old(log)
      ensures cleared ==> P.TableOf(log).running == old(proposal) && P.TableOf(log).fired == 0
    {
      cleared := Reach();
      if cleared {
        Log(P.Confirmed(proposal.value.serial, said, takenAt));
        proposal := None;
      }
    }

    /** A surface for calls that were confirmed: this agent's own, with all its rules. */
    ghost predicate Commits(surface: BoundSurface) {
      && surface.catalog == catalog && surface.agent == agent && surface.deniedSinks == deniedSinks
      && surface.reader == reader && !surface.reportOnly
    }

    /** The first `i` calls were handed over and run, on tainted ground if it was so from the start. */
    ghost predicate HasRun(surface: BoundSurface, pending: Proposal, i: nat, tainted: bool)
      requires i <= |pending.calls|
      reads surface, surface.scope
    {
      && |surface.handed| == i && CallsIn(surface.handed) == CallsRun(surface.ran) == pending.calls[..i]
      && (tainted ==> surface.scope.tainted && AllTainted(surface.ran))
    }

    /** One confirmed call: handed over, run, and logged. */
    method FireOne(pending: Proposal, i: nat, surface: BoundSurface, ghost tainted: bool)
      requires P.Safe(log) && P.TableOf(log).running == Some(pending) && P.TableOf(log).fired == i < |pending.calls|
      requires Offerable(pending.calls) && Commits(surface) && HasRun(surface, pending, i, tainted)
      modifies this`log, surface, surface.scope
      ensures P.Safe(log) && P.TableOf(log) == P.TableOf(old(log)).(fired := i + 1)
      ensures HasRun(surface, pending, i + 1, tainted)
    {
      hide P.Safe, P.TableOf;
      assert surface.Proposable(pending.calls[i]);
      var _ := surface.Commit(pending.calls[i]);
      Log(P.Fired(pending.serial, i, pending.calls[i]));
      assert pending.calls[..i+1] == pending.calls[..i] + [pending.calls[i]];
    }

    /** Run the confirmed calls in order, with the history lock free. False when the process died meanwhile. */
    method RunConfirmed(pending: Proposal, surface: BoundSurface) returns (lived: bool)
      requires Valid() && proposal == None
      requires P.TableOf(log).running == Some(pending) && P.TableOf(log).fired == 0
      requires Offerable(pending.calls) && Commits(surface) && surface.handed == [] && surface.ran == []
      modifies this`cache, this`stored, this`proposal, this`nextSerial, this`log, this`clock, this`accesses, this`trace
      modifies cache, surface, surface.scope
      ensures CallsIn(surface.handed) <= pending.calls && (lived ==> CallsIn(surface.handed) == pending.calls)
      ensures CallsRun(surface.ran) == CallsIn(surface.handed) && P.TableOf(log).fired == |surface.handed|
      ensures old(surface.scope.tainted) ==> surface.scope.tainted && AllTainted(surface.ran)
      ensures Valid() && proposal == None && SameCache()
      ensures P.TableOf(log).running == Some(pending) && (lived ==> P.TableOf(log).fired == |pending.calls|)
      ensures old(Sound()) ==> Sound()
      ensures old(trace) <= trace && AllFine(trace[|old(trace)|..])
      ensures !lived ==> trace != old(trace) && trace[|trace|-1] == Dropped
      ensures accesses >= old(accesses)
    {
      hide Dialogue, Apart, P.Safe, P.TableOf, OnlyAged, Aged, NoSystem, Persisted, P.ParseDecision, HasRun, Commits,
        Offerable;
      NothingRun(surface, pending);
      var i := 0;
      while i < |pending.calls|
        invariant i <= |pending.calls|
        invariant Valid() && proposal == None && SameCache()
        invariant P.TableOf(log).running == Some(pending) && P.TableOf(log).fired == i
        invariant old(Sound()) ==> Sound()
        invariant old(trace) <= trace && AllFine(trace[|old(trace)|..]) && accesses >= old(accesses)
        invariant HasRun(surface, pending, i, old(surface.scope.tainted))
      {
        OthersAct();
        var dies: bool := *;
        if dies {
          WasRun(surface, pending, i, old(surface.scope.tainted));
          Restart();
          return false;
        }
        FireOne(pending, i, surface, old(surface.scope.tainted));
        i := i + 1;
      }
      OthersAct();
      WasRun(surface, pending, i, old(surface.scope.tainted));
      return true;
    }

    lemma NothingRun(surface: BoundSurface, pending: Proposal)
      requires surface.handed == [] && surface.ran == []
      ensures HasRun(surface, pending, 0, surface.scope.tainted)
    {
    }

    lemma WasRun(surface: BoundSurface, pending: Proposal, i: nat, tainted: bool)
      requires i <= |pending.calls| && HasRun(surface, pending, i, tainted)
      ensures |surface.handed| == i && CallsIn(surface.handed) == CallsRun(surface.ran) == pending.calls[..i]
      ensures i == |pending.calls| ==> CallsIn(surface.handed) == pending.calls
      ensures tainted ==> surface.scope.tainted && AllTainted(surface.ran)
    {
    }

    /** Read the list, then take the proposal off the table. Null when either cannot be done. */
    method TakeOn(said: string, prompt: string, takenAt: Time) returns (surface: BoundSurface?)
      requires Valid() && proposal.Some? && P.ParseDecision(said) == Some(P.Confirm)
      requires takenAt < proposal.value.expiresAt
      modifies this`cache, this`stored, this`proposal, this`log, this`accesses, cache
      ensures Valid() && SameCache() && accesses > old(accesses)
      ensures OnlyAged(old(stored)) && (old(Sound()) ==> Sound())
      ensures surface == null ==> proposal == old(proposal) && log == old(log)
      ensures surface != null ==>
                && proposal == None && P.TableOf(log).running == old(proposal) && P.TableOf(log).fired == 0
                && fresh(surface) && fresh(surface.scope) && Commits(surface)
                && surface.handed == [] && surface.ran == [] && surface.staged == []
                && cache != null
                && surface.scope.tainted == (old(proposal).value.tainted || Tainted(cache.items))
    {
      hide W.Windowed, Dialogue, Persisted, NoSystem, Apart, P.Safe, P.TableOf, P.ParseDecision, OnlyAged, Aged,
        Tainted;
      var pending := proposal.value;
      var messages := History(prompt);
      if messages == null {
        return null;
      }
      var cleared := Consume(said, takenAt);
      if !cleared {
        return null;
      }
      var scope := new Scope(messages.items);
      scope.tainted := scope.tainted || pending.tainted;
      surface := new BoundSurface(catalog, deniedSinks, agent, reader, scope, false);
    }

    /** What this proposal ran: its stored calls from the first on, each once, in order; all of them if all is set. */
    ghost predicate RunsOf(surface: BoundSurface, p: Proposal, all: bool)
      reads surface, surface.scope
    {
      && CallsIn(surface.handed) <= p.calls && (all ==> CallsIn(surface.handed) == p.calls)
      && CallsRun(surface.ran) == CallsIn(surface.handed)
      && (p.tainted ==> surface.scope.tainted && AllTainted(surface.ran))
    }

    method CommitProposal(said: string, prompt: string, takenAt: Time)
      returns (end: End, ghost handedTo: BoundSurface?)
      requires Valid() && proposal.Some? && P.ParseDecision(said) == Some(P.Confirm)
      requires takenAt < proposal.value.expiresAt
      modifies this`cache, this`stored, this`proposal, this`nextSerial, this`log, this`clock, this`accesses,
        this`trace, cache
      ensures Valid() && SameCache() && !end.RolledBack? && !end.Escaped?
      ensures Leaves(end, old(trace), trace)
      ensures old(Sound()) ==> Sound()
      ensures end.Kept? || end.Ahead? ==> accesses > old(accesses) && end.Kept? == fate(accesses - 1)
      ensures end.Untouched? ==> proposal == old(proposal) && log == old(log) && OnlyAged(old(stored))
      ensures !end.Untouched? ==> proposal == None && P.TableOf(log).running == old(proposal)
      ensures !end.Untouched? && !end.Died? ==> P.TableOf(log).fired == |old(proposal).value.calls|
      ensures handedTo == null <==> end.Untouched?
      ensures handedTo != null ==>
                fresh(handedTo) && Commits(handedTo) && RunsOf(handedTo, old(proposal).value, !end.Died?)
      ensures handedTo != null && (end.Kept? || end.Ahead?) ==> P.TableOf(log).fired == |handedTo.handed|
      ensures end.Kept? ==>
                exists was: seq<Message>, summary: string ::
                  Added(was, Spoken(said, summary, handedTo.scope.tainted, clock))
    {
      hide W.Windowed, Dialogue, Persisted, NoSystem, Apart, Leaves, P.Safe, P.TableOf, P.ParseDecision, OnlyAged, Aged;
      var pending := proposal.value;
      var surface := TakeOn(said, prompt, takenAt);
      if surface == null {
        LeavesNothing(trace);
        return Untouched, null;
      }
      var lived := RunConfirmed(pending, surface);
      handedTo := surface;
      if !lived {
        LeavesDropped(old(trace), trace);
        end := Died;
        return;
      }
      ghost var before := trace;
      var summary: string;
      ghost var was := stored;
      end, summary := Summarise(said, prompt, surface.scope.tainted);
      assert end.Kept? ==> Added(was, Spoken(said, summary, handedTo.scope.tainted, clock));
      LeavesLater(end, old(trace), before, trace);
    }

    /** Read the list again, for others may have written it, and append what was done. */
    method Summarise(said: string, prompt: string, tainted: bool) returns (end: End, summary: string)
      requires Valid()
      modifies this`cache, this`stored, this`proposal, this`nextSerial, this`log, this`accesses, this`trace
      ensures Valid() && (cache == null || fresh(cache)) && (end.Kept? || end.Ahead? || end.Unrecorded?)
      ensures Leaves(end, old(trace), trace) && proposal == old(proposal) && log == old(log)
      ensures end.Kept? || end.Ahead? ==> accesses > old(accesses) && end.Kept? == fate(accesses - 1)
      ensures old(Sound()) ==> Sound()
      ensures end.Kept? ==> Added(old(stored), Spoken(said, summary, tainted, clock))
    {
      hide W.Windowed, Dialogue, Persisted, NoSystem, Apart, P.Safe, P.TableOf, OnlyAged, Aged;
      Restart();
      assert Held() == old(stored);
      label reading:
      var messages := History(prompt);
      assert old@reading(Held()) == old(stored);
      if messages == null {
        return Unrecorded, "";
      }
      summary := *;
      ghost var before := messages.items;
      end := Exchange(messages, said, summary, tainted, Keep);
      if end.Kept? {
        IsAdded(old(stored), before, Spoken(said, summary, tainted, clock));
        assert Added(old(stored), Spoken(said, summary, tainted, clock));
      }
    }

    method RejectProposal(said: string, prompt: string) returns (end: End)
      requires Valid() && proposal.Some?
      modifies this`cache, this`stored, this`proposal, this`nextSerial, this`log, this`accesses, this`trace, cache
      ensures Valid() && SameCache() && (end.Kept? || end.Untouched? || end.Ahead?)
      ensures Leaves(end, old(trace), trace)
      ensures end.Untouched? <==> old(cache) == null && !fate(old(accesses))
      ensures accesses > old(accesses) && (old(cache) == null && !end.Untouched? ==> accesses > old(accesses) + 1)
      ensures !end.Untouched? ==>
                end.Kept? == fate(accesses - 1) && trace == old(trace) + [Tried(SummaryWrite, end.Kept?)]
      ensures proposal == if end.Kept? then None else old(proposal)
      ensures old(Sound()) ==> Sound()
      ensures !end.Kept? ==> OnlyAged(old(stored))
      ensures end.Kept? ==> Added(old(Held()), Spoken(said, "Discarded.", false, clock))
      ensures log == old(log) + if end.Kept? then [P.Dropped] else []
    {
      hide W.Windowed, Dialogue, Persisted, NoSystem, Apart, P.Safe, P.TableOf, OnlyAged, Aged;
      var messages := History(prompt);
      if messages == null {
        return Untouched;
      }
      ghost var aged, before := stored, messages.items;
      end := Exchange(messages, said, "Discarded.", false, Clear);
      if end.Ahead? {
        StillAged(old(stored), aged);
      } else {
        IsAdded(old(Held()), before, Spoken(said, "Discarded.", false, clock));
      }
    }

    /** The live proposal, if it has not expired; an expired one is taken off the table. */
    method TakeProposal() returns (fault: bool, pending: Option<Proposal>, expired: bool)
      requires Tabled()
      modifies this`proposal, this`log, this`accesses
      ensures Tabled()
      ensures fault ==> proposal == old(proposal) && log == old(log)
      ensures !fault ==> expired == (old(proposal).Some? && old(proposal).value.expiresAt <= clock)
      ensures !fault && expired ==> proposal == None && pending == None
      ensures !fault && !expired ==> proposal == old(proposal) == pending && log == old(log)
      ensures Undecided(old(log), log)
      ensures accesses >= old(accesses)
    {
      var readable := Reach();
      fault, pending, expired := !readable, None, false;
      if fault || proposal.None? {
        return;
      }
      if proposal.value.expiresAt <= clock {
        var cleared := Reach();
        if !cleared {
          return true, None, false;
        }
        Log(P.Dropped);
        proposal := None;
        return false, None, true;
      }
      return false, proposal, false;
    }

    /** One message from the agent's person, under the peer lock. */
    method Handle(said: string, prompt: string) returns (end: End, ghost handedTo: BoundSurface?)
      requires Valid()
      modifies this`cache, this`stored, this`proposal, this`nextSerial, this`log, this`clock, this`accesses,
        this`trace, cache
      ensures Valid() && SameCache()
      ensures Leaves(end, old(trace), trace)
      ensures end.Ahead? ==> accesses > old(accesses) && !fate(accesses - 1)
      ensures old(Sound()) && !end.Escaped? ==> Sound()
      ensures end.RolledBack? || end.Escaped? ==> OnlyAged(old(stored))
      ensures handedTo != null ==>
                && P.IsYes(said) && old(proposal).Some? && old(clock) < old(proposal).value.expiresAt
                && fresh(handedTo) && Commits(handedTo) && RunsOf(handedTo, old(proposal).value, !end.Died?)
                && proposal == None && P.TableOf(log).running == old(proposal)
      ensures handedTo == null ==> Undecided(old(log), log)
      ensures P.IsYes(said) && old(proposal).Some? && old(clock) < old(proposal).value.expiresAt && !end.Untouched? ==>
                handedTo != null
      ensures P.IsNo(said) && old(proposal).Some? && end.Kept? ==> proposal == None
    {
      hide W.Windowed, Dialogue, Persisted, NoSystem, Apart, P.Safe, P.TableOf, P.ParseDecision, OnlyAged, Aged,
        P.IsYes,
        P.IsNo, RunsOf, Commits, Added;
      handedTo := null;
      var decision := P.ParseDecision(said);
      P.DecisionIsAWord(said);
      if decision == None {
        end := Converse(said, prompt);
        return;
      }
      var fault, pending, expired := TakeProposal();
      if fault || expired {
        return Untouched, null;
      }
      if pending == None {
        end := Converse(said, prompt);
        return;
      }
      var takenAt := clock;
      OthersAct();
      ghost var before := trace;
      if decision == Some(P.Confirm) {
        end, handedTo := CommitProposal(said, prompt, takenAt);
      } else {
        end := RejectProposal(said, prompt);
      }
      LeavesLater(end, old(trace), before, trace);
    }

    /**
     Everything that ever happens to this agent, in any order. The proposal log stays safe throughout. The cache and
     the table agree if and only if nothing in the trace parts them that is not mended, and what the provider would
     refuse is only ever left by an exception the channel does not catch.
     */
    method Serve()
      requires Valid() && Sound()
      modifies this`cache, this`stored, this`proposal, this`nextSerial, this`log, this`clock, this`accesses,
        this`trace, cache
      ensures Valid() && SameCache() && old(trace) <= trace
      ensures Agrees() <==> !Apart(trace)
      ensures Whole(trace[|old(trace)|..]) ==> Sound()
    {
      hide W.Windowed, Dialogue, Persisted, NoSystem, Apart, P.Safe, P.TableOf, OnlyAged, Aged;
      var steps: nat := *;
      while steps > 0
        invariant Valid() && SameCache() && old(trace) <= trace
        invariant Whole(trace[|old(trace)|..]) ==> Sound()
      {
        steps := steps - 1;
        ghost var before := trace;
        var what: nat, said: string, prompt: string, wait: real := *, *, *, *;
        if what == 0 {
          var end, _ := Handle(said, prompt);
        } else if what == 1 {
          Restart();
        } else {
          OthersAct();
        }
        WholeInParts(old(trace), before, trace);
        if wait >= 0.0 {
          clock := clock + wait;
        }
      }
    }
  }

  /** Serving one agent from an empty table. */
  method Service(catalog: map<string, ToolMeta>, deniedSinks: set<string>, agent: Agent, reader: Reader, maxRounds: nat,
                 keep: nat, maxAge: real, proposalLife: real, fate: nat -> bool, clock: Time) returns (channel: Channel)
    ensures P.Safe(channel.log)
    ensures channel.Agrees() <==> !Apart(channel.trace)
    ensures Whole(channel.trace) ==> channel.Sound()
  {
    channel := new Channel(catalog, deniedSinks, agent, reader, maxRounds, keep, maxAge, proposalLife, fate, clock);
    channel.Serve();
    assert channel.trace[0..] == channel.trace;
  }

  /** A no to a proposal, whose answer could not be saved: the cache has two messages the table has not. */
  method LostSummary(agent: Agent, reader: Reader, call: ToolCall, prompt: string, clock: Time)
    returns (channel: Channel)
    ensures channel.trace == [Tried(SummaryWrite, false)] && !channel.Agrees() && channel.proposal.Some?
  {
    // The proposal is stored and the history is read; nothing after that reaches the store.
    var catalog := map[call.name := ToolMeta(true, None, false, true)];
    channel := new Channel(catalog, {}, agent.(tools := {call.name}), reader, 8, 40, 3600.0, 600.0, n => n <= 1, clock);
    var _ := channel.Persist([], Put(P.Proposal(channel.nextSerial, [call], false, clock + 600.0)));
    var end := channel.RejectProposal("no", prompt);
    assert channel.trace == [] + [Tried(SummaryWrite, false)];
    assert Apart(channel.trace);
  }
}
