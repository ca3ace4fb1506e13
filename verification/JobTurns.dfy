/** Turns still open, the reminders each has saved, and how a failed one takes them back. */
module JobTurns {
  import opened RunLog

  /** Asking the model; cancelling what it saved; sending the reply; saying that it failed. */
  datatype Phase = Asking | Rolling | Answering | Apologising

  /**
   `left` are the saved reminders whose cancel is still to be tried. A turn that runs a confirmed proposal never
   fails.
   */
  datatype OpenTurn = OpenTurn(confirms: bool, phase: Phase, saved: seq<string>, left: seq<string>)

  type Turns = map<nat, OpenTurn>

  /** A reminder saved by a turn still open waits for that turn. */
  predicate HoldsJob(turns: Turns, id: string) {
    exists t :: t in turns && id in turns[t].saved
  }

  // ------------------------------------------------------------------ the steps of a turn

  function Began(turns: Turns, t: nat, confirms: bool): Turns {
    turns[t := OpenTurn(confirms, Asking, [], [])]
  }

  function Saved(turns: Turns, t: nat, id: string): Turns
    requires t in turns
  {
    turns[t := turns[t].(saved := turns[t].saved + [id])]
  }

  function RollingBack(turns: Turns, t: nat): Turns
    requires t in turns
  {
    turns[t := turns[t].(phase := Rolling, left := turns[t].saved)]
  }

  function TriedFirst(turns: Turns, t: nat): Turns
    requires t in turns && turns[t].left != []
  {
    turns[t := turns[t].(left := turns[t].left[1..])]
  }

  function Cleared(turns: Turns, t: nat): Turns
    requires t in turns
  {
    turns[t := turns[t].(phase := Apologising, saved := [], left := [])]
  }

  function Replying(turns: Turns, t: nat): Turns
    requires t in turns
  {
    turns[t := turns[t].(phase := Answering)]
  }

  // ------------------------------------------------------------------ what a turn means to one job

  /** One job's standing with a turn that saved it. */
  datatype Stand = Stand(phase: Phase, left: bool)

  function StandsOf(turns: Turns, id: string): map<nat, Stand> {
    map t | t in turns && id in turns[t].saved :: Stand(turns[t].phase, id in turns[t].left)
  }

  function Failing(stands: map<nat, Stand>, t: nat): map<nat, Stand> {
    if t in stands then stands[t := Stand(Rolling, true)] else stands
  }

  function Replied(stands: map<nat, Stand>, t: nat): map<nat, Stand> {
    if t in stands then stands[t := Stand(Answering, false)] else stands
  }

  lemma HeldMeansStanding(turns: Turns, id: string)
    ensures HoldsJob(turns, id) <==> StandsOf(turns, id) != map[]
  {
    if HoldsJob(turns, id) {
      var t :| t in turns && id in turns[t].saved;
      assert t in StandsOf(turns, id);
    } else {
      assert StandsOf(turns, id).Keys == {};
    }
  }

  lemma NoTurnsNoStands()
    ensures forall id :: StandsOf(map[], id) == map[]
  {
  }

  lemma BeganStands(turns: Turns, t: nat, confirms: bool, id: string)
    requires t !in turns
    ensures StandsOf(Began(turns, t, confirms), id) == StandsOf(turns, id)
  {
  }

  lemma SavedStands(turns: Turns, t: nat, id: string, other: string)
    requires t in turns && turns[t].phase.Asking? && turns[t].left == []
    ensures StandsOf(Saved(turns, t, id), other) ==
              if other == id then StandsOf(turns, id)[t := Stand(Asking, false)] else StandsOf(turns, other)
  {
  }

  lemma RollingStands(turns: Turns, t: nat, id: string)
    requires t in turns
    ensures StandsOf(RollingBack(turns, t), id) == Failing(StandsOf(turns, id), t)
  {
  }

  lemma TriedStands(turns: Turns, t: nat, id: string)
    requires t in turns && turns[t].left != [] && turns[t].phase.Rolling?
    requires Distinct(turns[t].left) && forall i :: 0 <= i < |turns[t].left| ==> turns[t].left[i] in turns[t].saved
    ensures StandsOf(TriedFirst(turns, t), id) ==
              if id == turns[t].left[0] then StandsOf(turns, id)[t := Stand(Rolling, false)] else StandsOf(turns, id)
  {
    var left := turns[t].left;
    assert forall i :: 0 < i < |left| ==> left[1..][i-1] == left[i];
    assert id in left <==> id == left[0] || id in left[1..];
  }

  lemma ClearedStands(turns: Turns, t: nat, id: string)
    requires t in turns
    ensures StandsOf(Cleared(turns, t), id) == StandsOf(turns, id) - {t}
  {
  }

  lemma ReplyingStands(turns: Turns, t: nat, id: string)
    requires t in turns && turns[t].left == []
    ensures StandsOf(Replying(turns, t), id) == Replied(StandsOf(turns, id), t)
  {
  }

  lemma ClosedStands(turns: Turns, t: nat, id: string)
    ensures StandsOf(turns - {t}, id) == StandsOf(turns, id) - {t}
  {
  }

  // ------------------------------------------------------------------ turns and the log

  predicate Distinct(s: seq<string>) { forall i, k :: 0 <= i < k < |s| ==> s[i] != s[k] }

  predicate Matches(turn: OpenTurn, state: TurnState) {
    match turn.phase
    case Asking => state.Running?
    case Rolling => state == Over(Failed)
    case Apologising => state == Over(Failed)
    case Answering => state == Over(Answered)
  }

  predicate WellKept(turn: OpenTurn) {
    && Distinct(turn.saved) && Distinct(turn.left)
    && (forall i :: 0 <= i < |turn.left| ==> turn.left[i] in turn.saved)
    && (!turn.phase.Rolling? ==> turn.left == [])
  }

  /** Every open turn is where the log says it is, and turns not begun yet are unknown to it. */
  ghost predicate Fit(turns: Turns, next: nat, log: seq<Event>) {
    && (forall t :: t in turns ==> t < next && Matches(turns[t], TurnOf(log, t)) && WellKept(turns[t]))
    && (forall t: nat :: t >= next ==> TurnOf(log, t).Unopened?)
  }

  lemma TurnOfMore(log: seq<Event>, e: Event, t: nat)
    ensures TurnOf(log + [e], t) == NextTurn(TurnOf(log, t), e, t)
  {
    assert (log + [e])[..|log|] == log;
  }

  lemma FitKept(turns: Turns, next: nat, log: seq<Event>, e: Event)
    requires Fit(turns, next, log) && !e.Restarted? && !e.Turned?
    ensures Fit(turns, next, log + [e])
  {
    forall t: nat ensures TurnOf(log + [e], t) == TurnOf(log, t) {
      TurnOfMore(log, e, t);
    }
  }

  lemma FitRestarted(turns: Turns, next: nat, log: seq<Event>)
    requires Fit(turns, next, log)
    ensures Fit(map[], next, log + [Restarted])
  {
    forall t: nat | t >= next ensures TurnOf(log + [Restarted], t).Unopened? {
      TurnOfMore(log, Restarted, t);
    }
  }

  /** A step of one turn changes that turn alone, in the table and in the log. */
  lemma FitTurned(turns: Turns, next: nat, log: seq<Event>, t: nat, step: TurnStep, turn: OpenTurn)
    requires Fit(turns, next, log) && t < next && WellKept(turn)
    requires Matches(turn, NextTurn(TurnOf(log, t), Turned(t, step), t))
    ensures Fit(turns[t := turn], next, log + [Turned(t, step)])
  {
    forall k: nat ensures TurnOf(log + [Turned(t, step)], k) == NextTurn(TurnOf(log, k), Turned(t, step), k) {
      TurnOfMore(log, Turned(t, step), k);
    }
  }

  lemma FitBegan(turns: Turns, next: nat, log: seq<Event>, confirms: bool)
    requires Fit(turns, next, log)
    ensures next !in turns && Fit(Began(turns, next, confirms), next + 1, log + [Turned(next, Opened)])
  {
    assert next !in turns;
    forall k: nat ensures TurnOf(log + [Turned(next, Opened)], k) == NextTurn(TurnOf(log, k), Turned(next, Opened), k) {
      TurnOfMore(log, Turned(next, Opened), k);
    }
  }

  lemma FitBroken(turns: Turns, next: nat, log: seq<Event>, t: nat)
    requires Fit(turns, next, log) && t < next
    ensures Fit(turns - {t}, next, log + [Turned(t, BrokenOff)])
  {
    forall k: nat ensures TurnOf(log + [Turned(t, BrokenOff)], k) == NextTurn(TurnOf(log, k), Turned(t, BrokenOff), k) {
      TurnOfMore(log, Turned(t, BrokenOff), k);
    }
  }

  /** A step the log does not show. */
  lemma FitChanged(turns: Turns, next: nat, log: seq<Event>, t: nat, turn: OpenTurn)
    requires Fit(turns, next, log) && t in turns && WellKept(turn) && Matches(turn, TurnOf(log, t))
    ensures Fit(turns[t := turn], next, log)
  {
  }

  lemma FitClosed(turns: Turns, next: nat, log: seq<Event>, t: nat)
    requires Fit(turns, next, log)
    ensures Fit(turns - {t}, next, log)
  {
  }

  lemma SavedIsKept(turn: OpenTurn, id: string)
    requires WellKept(turn) && id !in turn.saved
    ensures WellKept(turn.(saved := turn.saved + [id]))
  {
  }

  lemma TriedIsKept(turn: OpenTurn)
    requires WellKept(turn) && turn.left != []
    ensures WellKept(turn.(left := turn.left[1..]))
  {
  }
}
