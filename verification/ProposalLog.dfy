/** What an observer sees of one agent's proposals, which logs are acceptable, and what that means. */
module ProposalLog {
  import opened Wrappers
  import opened Messages
  import opened Names

  /** `serial` tells one stored proposal from another. */
  datatype Proposal = Proposal(serial: nat, calls: seq<ToolCall>, tainted: bool, expiresAt: Time)

  datatype Decision = Confirm | Reject

  /** Only a whole-message yes or no decides. */
  function ParseDecision(said: string): Option<Decision> {
    var word := Fold(Strip(said));
    if word in {"yes", "confirm"} then Some(Confirm)
    else if word in {"no", "cancel"} then Some(Reject)
    else None
  }

  predicate IsYes(said: string) { Spells(Strip(said), "yes") || Spells(Strip(said), "confirm") }

  predicate IsNo(said: string) { Spells(Strip(said), "no") || Spells(Strip(said), "cancel") }

  /** A message confirms, or rejects, if and only if it is one of two words, space around it and capitals aside. */
  lemma DecisionIsAWord(said: string)
    ensures ParseDecision(said) == Some(Confirm) <==> IsYes(said)
    ensures ParseDecision(said) == Some(Reject) <==> IsNo(said)
  {
    var word := Strip(said);
    FoldedSpells(word, "yes");
    FoldedSpells(word, "confirm");
    FoldedSpells(word, "no");
    FoldedSpells(word, "cancel");
  }

  datatype Event =
    | Offered(proposal: Proposal)                        // stored, replacing any older one
    | Dropped                                            // rejected, expired, or abandoned
    | Confirmed(serial: nat, said: string, at: Time)     // taken off the table to be run
    | Fired(serial: nat, index: nat, call: ToolCall)     // one stored call was committed

  /** The proposal on the table, the one being run, and how far that one got. */
  datatype Table = Table(live: Option<Proposal>, running: Option<Proposal>, fired: nat, next: nat)

  const BARE := Table(None, None, 0, 0)

  function Note(t: Table, e: Event): Table {
    match e
    case Offered(p) => t.(live := Some(p), next := p.serial + 1)
    case Dropped => t.(live := None)
    case Confirmed(_, _, _) => t.(live := None, running := t.live, fired := 0)
    case Fired(_, _, _) => t.(fired := t.fired + 1)
  }

  function TableOf(log: seq<Event>): Table {
    if log == [] then BARE else Note(TableOf(log[..|log|-1]), log[|log|-1])
  }

  predicate Allowed(t: Table, e: Event) {
    match e
    case Offered(p) => p.serial >= t.next
    case Dropped => true
    case Confirmed(serial, said, at) =>
      && t.live.Some? && t.live.value.serial == serial
      && ParseDecision(said) == Some(Confirm) && at < t.live.value.expiresAt
    case Fired(serial, index, call) =>
      && t.running.Some? && t.running.value.serial == serial
      && index == t.fired < |t.running.value.calls| && call == t.running.value.calls[index]
  }

  ghost predicate AllowedAt(log: seq<Event>, k: nat)
    requires k < |log|
  {
    Allowed(TableOf(log[..k]), log[k])
  }

  ghost predicate Safe(log: seq<Event>) {
    forall k :: 0 <= k < |log| ==> AllowedAt(log, k)
  }

  lemma Extend(log: seq<Event>, e: Event)
    requires Safe(log) && Allowed(TableOf(log), e)
    ensures Safe(log + [e]) && TableOf(log + [e]) == Note(TableOf(log), e)
  {
    var more := log + [e];
    assert more[..|log|] == log;
    forall k | 0 <= k < |more| ensures AllowedAt(more, k) {
      if k < |log| {
        assert more[..k] == log[..k] && AllowedAt(log, k);
      }
    }
  }

  lemma Step(log: seq<Event>, k: nat)
    requires k < |log|
    ensures TableOf(log[..k+1]) == Note(TableOf(log[..k]), log[k])
  {
    assert log[..k+1][..k] == log[..k];
  }

  // ------------------------------------------------------------------ what a safe log means

  /** Serials only grow, and whatever is live or running was offered. */
  lemma {:induction false} WhereFrom(log: seq<Event>, k: nat)
    requires Safe(log) && k <= |log|
    ensures TableOf(log[..k]).live.Some? ==>
              exists i :: 0 <= i < k && log[i] == Offered(TableOf(log[..k]).live.value)
                          && forall m :: i < m < k ==> log[m].Fired?
    ensures TableOf(log[..k]).live.Some? ==> TableOf(log[..k]).live.value.serial < TableOf(log[..k]).next
    ensures TableOf(log[..k]).running.Some? ==> TableOf(log[..k]).running.value.serial < TableOf(log[..k]).next
    ensures TableOf(log[..k]).live.Some? && TableOf(log[..k]).running.Some? ==>
              TableOf(log[..k]).running.value.serial < TableOf(log[..k]).live.value.serial
    decreases k
  {
    if k > 0 {
      WhereFrom(log, k - 1);
      Step(log, k - 1);
      assert AllowedAt(log, k - 1);
      if log[k-1].Offered? {
        assert log[k-1] == Offered(TableOf(log[..k]).live.value);
      }
    }
  }

  /**
   A yes runs the proposal the person last saw: the newest one offered, not dropped since, not expired,
   and only when the whole message says so.
   */
  lemma YesRunsTheLatestOffer(log: seq<Event>, k: nat) returns (offered: nat)
    requires Safe(log) && k < |log| && log[k].Confirmed?
    ensures offered < k && log[offered].Offered?
    ensures log[offered].proposal.serial == log[k].serial && log[k].at < log[offered].proposal.expiresAt
    ensures IsYes(log[k].said)
    ensures forall m :: offered < m < k ==> log[m].Fired?
  {
    assert AllowedAt(log, k);
    DecisionIsAWord(log[k].said);
    WhereFrom(log, k);
    offered :| 0 <= offered < k && log[offered] == Offered(TableOf(log[..k]).live.value)
               && forall m :: offered < m < k ==> log[m].Fired?;
  }

  lemma {:induction false} NextGrows(log: seq<Event>, i: nat, k: nat)
    requires Safe(log) && i <= k <= |log|
    ensures TableOf(log[..i]).next <= TableOf(log[..k]).next
    decreases k
  {
    if i < k {
      NextGrows(log, i, k - 1);
      Step(log, k - 1);
      assert AllowedAt(log, k - 1);
    }
  }

  lemma {:induction false} NotLiveAgain(log: seq<Event>, i: nat, k: nat, serial: nat)
    requires Safe(log) && i <= k <= |log| && serial < TableOf(log[..i]).next
    requires TableOf(log[..i]).live.None? || TableOf(log[..i]).live.value.serial != serial
    ensures TableOf(log[..k]).live.None? || TableOf(log[..k]).live.value.serial != serial
    decreases k
  {
    if i < k {
      NotLiveAgain(log, i, k - 1, serial);
      NextGrows(log, i, k - 1);
      Step(log, k - 1);
      assert AllowedAt(log, k - 1);
    }
  }

  /** A proposal is taken off the table at most once, and never after it was dropped or replaced. */
  lemma ConfirmedAtMostOnce(log: seq<Event>, i: nat, k: nat, serial: nat)
    requires Safe(log) && i < k < |log|
    requires TableOf(log[..i]).live.Some? && TableOf(log[..i]).live.value.serial == serial
    requires log[i].Confirmed? || log[i].Dropped? || log[i].Offered?
    ensures !(log[k].Confirmed? && log[k].serial == serial)
  {
    WhereFrom(log, i);
    Step(log, i);
    assert AllowedAt(log, i);
    NextGrows(log, i, i + 1);
    NotLiveAgain(log, i + 1, k, serial);
    assert AllowedAt(log, k);
  }

  /** The calls fired for one proposal, in the order they were fired. */
  function FiredFor(log: seq<Event>, k: nat, serial: nat): seq<ToolCall>
    requires k <= |log|
    decreases k
  {
    if k == 0 then []
    else FiredFor(log, k - 1, serial) + if log[k-1].Fired? && log[k-1].serial == serial then [log[k-1].call] else []
  }

  lemma {:induction false} NothingBeforeTheOffer(log: seq<Event>, k: nat, p: Proposal, offered: nat)
    requires Safe(log) && k <= offered < |log| && log[offered] == Offered(p)
    ensures FiredFor(log, k, p.serial) == [] && TableOf(log[..k]).next <= p.serial
    decreases k
  {
    assert AllowedAt(log, offered);
    NextGrows(log, k, offered);
    WhereFrom(log, k);
    if k > 0 {
      NothingBeforeTheOffer(log, k - 1, p, offered);
      assert AllowedAt(log, k - 1);
      WhereFrom(log, k - 1);
    }
  }

  /** Before it is confirmed nothing of it fired; while it runs, exactly the first calls; afterwards that stands. */
  predicate Progress(t: Table, fired: seq<ToolCall>, p: Proposal) {
    && fired <= p.calls
    && p.serial < t.next
    && (t.live.Some? && t.live.value.serial == p.serial ==> t.live.value == p && fired == [])
    && (t.running.Some? && t.running.value.serial == p.serial ==>
          t.running.value == p && t.fired <= |p.calls| && fired == p.calls[..t.fired])
  }

  lemma ProgressMoves(t: Table, fired: seq<ToolCall>, p: Proposal, e: Event)
    requires Progress(t, fired, p) && Allowed(t, e)
    requires t.live.Some? && t.running.Some? ==> t.running.value.serial < t.live.value.serial
    ensures Progress(Note(t, e), fired + if e.Fired? && e.serial == p.serial then [e.call] else [], p)
  {
    assert fired + [] == fired;
  }

  lemma {:induction false} FiredIsPrefix(log: seq<Event>, k: nat, p: Proposal, offered: nat)
    requires Safe(log) && offered < k <= |log| && log[offered] == Offered(p)
    ensures Progress(TableOf(log[..k]), FiredFor(log, k, p.serial), p)
    decreases k
  {
    Step(log, k - 1);
    assert AllowedAt(log, k - 1);
    WhereFrom(log, k - 1);
    if offered < k - 1 {
      FiredIsPrefix(log, k - 1, p, offered);
      ProgressMoves(TableOf(log[..k-1]), FiredFor(log, k - 1, p.serial), p, log[k-1]);
    } else {
      NothingBeforeTheOffer(log, offered, p, offered);
    }
  }

  /** Whatever fails or restarts, what runs of a proposal is its stored calls from the first on, each once, in order. */
  lemma StoredCallsRunOnceInOrder(log: seq<Event>, offered: nat, p: Proposal)
    requires Safe(log) && offered < |log| && log[offered] == Offered(p)
    ensures FiredFor(log, |log|, p.serial) <= p.calls
  {
    FiredIsPrefix(log, |log|, p, offered);
  }

  /** No call fires but those of a proposal that was confirmed before. */
  lemma {:induction false} FiredAfterYes(log: seq<Event>, k: nat)
    requires Safe(log) && k <= |log|
    ensures TableOf(log[..k]).running.Some? ==>
              exists i :: 0 <= i < k && log[i].Confirmed? && log[i].serial == TableOf(log[..k]).running.value.serial
    decreases k
  {
    if k > 0 {
      FiredAfterYes(log, k - 1);
      Step(log, k - 1);
      assert AllowedAt(log, k - 1);
      if log[k-1].Confirmed? {
        assert log[k-1].serial == TableOf(log[..k]).running.value.serial;
      }
    }
  }

  lemma NothingFiresWithoutAYes(log: seq<Event>, k: nat)
    requires Safe(log) && k < |log| && log[k].Fired?
    ensures exists i :: 0 <= i < k && log[i].Confirmed? && log[i].serial == log[k].serial
  {
    assert AllowedAt(log, k);
    FiredAfterYes(log, k);
  }
}
