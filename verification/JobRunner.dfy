/**
 The in-process job runner. One tick polls the table and fires each due row in turn.
 Wherever a coroutine of the runner awaits, owners may act (`OwnersAct`) and the process may die (`Restart`).
 Each step between two awaits touches one job, so the invariant is stated on one job's slice of the state.
 */
module JobRunner {
  import opened Wrappers
  import opened Names
  import opened JobRows
  import opened JobStore
  import opened RunLog
  import R = JobReports
  import S = JobSlice
  import T = JobTurns

  type Slice = S.Slice

  /** How a coroutine of the runner ends: normally, by an exception, or with the process. */
  datatype Exit = Returned | Raised | Died

  class JobRunner {
    const store: Store
    var retryAt: map<string, Time>
    var retryDelay: map<string, real>
    var relaySent: set<string>
    var relayRecorded: set<string>
    var notified: set<string>

    // The runner's surroundings: the clock, and the turns still open.
    var clock: Time
    var turns: T.Turns
    var nextTurn: nat

    ghost var log: seq<Event>
    ghost var busy: Option<string>         // the job being fired
    ghost var waiting: map<string, S.Snapshot>    // rows as the current tick read them, not fired yet

    ghost function SliceOf(id: string): Slice
      reads this, store
    {
      S.Slice(if id in store.jobs then Some(store.jobs[id]) else None,
              SeenOf(log, id),
              S.Memory(id in relaySent, id in relayRecorded, id in notified, T.StandsOf(turns, id),
                       if id in retryAt then Some(retryAt[id]) else None,
                       if id in retryDelay then Some(retryDelay[id]) else None),
              if id in waiting then Some(waiting[id]) else None,
              busy == Some(id))
    }

    ghost predicate JobInv(id: string)
      reads this, store
    {
      S.Fine(SliceOf(id), id, clock)
    }

    /** Holds at every await. */
    ghost predicate Inv()
      reads this, store
    {
      Safe(log) && T.Fit(turns, nextTurn, log) && forall id :: JobInv(id)
    }

    /** A step between two awaits touches one job. */
    twostate predicate Only(id: string)
      reads this, store
    {
      && clock == old(clock)
      && Safe(log) && T.Fit(turns, nextTurn, log)
      && forall other :: other != id ==> SliceOf(other) == old(SliceOf(other))
    }

    twostate lemma KeepInv(id: string)
      requires old(Inv()) && Only(id) && JobInv(id)
      ensures Inv()
    {
      forall other ensures JobInv(other) {
        assert old(JobInv(other));
      }
    }

    constructor ()
      ensures Inv() && log == [] && busy == None && fresh(store) && store.jobs == map[] && waiting == map[]
    {
      store := new Store();
      retryAt, retryDelay := map[], map[];
      relaySent, relayRecorded, notified, turns, nextTurn := {}, {}, {}, map[], 0;
      log, busy, waiting := [], None, map[];
    }

    /** Something happens to one job. */
    ghost method Log(e: Event)
      requires Safe(log) && !Wide(e) && Allowed(SeenOf(log, e.id), e) && (Tries(e) ==> SeenOf(log, e.id).firing.free)
      requires e.Created? && e.saver.Some? ==> TurnOf(log, e.saver.value).Running?
      modifies this`log
      ensures log == old(log) + [e] && Safe(log)
      ensures SeenOf(log, e.id) == Note(SeenOf(old(log), e.id), e, e.id)
      ensures SeenOf(log, e.id).firing.free == SeenOf(old(log), e.id).firing.free
      ensures forall id :: id != e.id ==> SeenOf(log, id) == SeenOf(old(log), id)
      ensures T.Fit(turns, nextTurn, old(log)) ==> T.Fit(turns, nextTurn, log)
    {
      hide Allowed, SeenOf, TurnOf, Safe, T.Fit;
      Extend(log, e);
      FiringStep(SeenOf(log, e.id), e, e.id);
      if T.Fit(turns, nextTurn, log) {
        T.FitKept(turns, nextTurn, log, e);
      }
      forall id | id != e.id ensures SeenOf(log + [e], id) == SeenOf(log, id) {
        NotMine(SeenOf(log, id), e, id);
      }
      log := log + [e];
    }

    /** Something happens to a turn, to the table as a whole, or to the process. */
    ghost method LogWide(e: Event)
      requires Safe(log) && Wide(e) && (e.Turned? ==> TurnMay(TurnOf(log, e.turn), e.step))
      modifies this`log
      ensures log == old(log) + [e] && Safe(log)
      ensures forall id :: SeenOf(log, id) == Note(SeenOf(old(log), id), e, id)
    {
      hide Allowed, SeenOf, TurnOf, Safe, Note;
      Extend(log, e);
      log := log + [e];
    }

    // ------------------------------------------------------------------ interference

    /** A row is inserted, by a confirmed call or by a turn that saves a reminder at once. */
    method OwnerCreates(job: Job, saver: Option<nat>)
      requires Inv() && S.Newborn(job)
      requires saver.Some? ==> saver.value in turns && turns[saver.value].phase.Asking? && !job.about.relay
      modifies store, this`log, this`turns
      ensures old(log) <= log
      ensures Inv() && Only(job.about.id) && S.OwnerMoved(old(SliceOf(job.about.id)), SliceOf(job.about.id), clock)
    {
      hide SeenOf, TurnOf, T.Fit, T.StandsOf, Safe, S.Fine, S.OwnerMoved, Note, Allowed, Says, Says;
      var id := job.about.id;
      assert JobInv(id);
      S.OwnerIdle(SliceOf(id), clock);
      var r := store.SaveJob(job);
      if r.Success? {
        S.CreateKeeps(old(SliceOf(id)), job, saver, clock);
        if saver.Some? {
          Remember(saver.value, id);
        }
        Log(S.CreationOf(job, saver));
        assert SliceOf(id) == S.Created(old(SliceOf(id)), job, saver);
      }
      KeepInv(id);
    }

    /** The turn notes what it saved. */
    method Remember(t: nat, id: string)
      requires T.Fit(turns, nextTurn, log) && t in turns && turns[t].phase.Asking? && T.StandsOf(turns, id) == map[]
      modifies this`turns
      ensures T.Fit(turns, nextTurn, log) && TurnOf(log, t).Running?
      ensures T.StandsOf(turns, id) == map[t := T.Stand(T.Asking, false)]
      ensures forall other :: other != id ==> T.StandsOf(turns, other) == T.StandsOf(old(turns), other)
    {
      assert id in turns[t].saved ==> t in T.StandsOf(turns, id);
      T.SavedIsKept(turns[t], id);
      forall other ensures T.StandsOf(T.Saved(turns, t, id), other) ==
                             if other == id then T.StandsOf(turns, id)[t := T.Stand(T.Asking, false)]
                             else T.StandsOf(turns, other)
      {
        T.SavedStands(turns, t, id, other);
      }
      T.FitChanged(turns, nextTurn, log, t, turns[t].(saved := turns[t].saved + [id]));
      turns := T.Saved(turns, t, id);
    }

    /** The owner's cancel, and the runner's own at the end of a one-time job. */
    method CancelRow(id: string, ghost over: bool) returns (r: Result<bool, StoreError>)
      requires Inv() && (over ==> id in store.jobs && S.IsOver(store.jobs[id], SeenOf(log, id)))
      modifies store, this`log
      ensures old(log) <= log
      ensures Inv() && Only(id) && S.OwnerMoved(old(SliceOf(id)), SliceOf(id), clock)
      ensures r.Success? && id in store.jobs ==> !store.jobs[id].Active()
    {
      hide SeenOf, TurnOf, T.Fit, T.StandsOf, Safe, S.Fine, S.OwnerMoved, Allowed, Note, Says;
      assert JobInv(id);
      S.OwnerIdle(SliceOf(id), clock);
      r := store.CancelJob(id, clock);
      if r == Success(true) {
        S.CancelKeeps(old(SliceOf(id)), id, clock, over);
        Log(Event.Cancelled(id, over));
      }
      KeepInv(id);
    }

    method OwnerReschedules(id: string, every: int)
      requires Inv() && every >= MIN_EVERY_SECONDS
      modifies store, this`log
      ensures old(log) <= log
      ensures Inv() && Only(id) && S.OwnerMoved(old(SliceOf(id)), SliceOf(id), clock)
    {
      hide SeenOf, TurnOf, T.Fit, T.StandsOf, Safe, S.Fine, S.OwnerMoved, Allowed, Note, Says, Says;
      assert JobInv(id);
      S.OwnerIdle(SliceOf(id), clock);
      var r := store.RescheduleJob(id, every, clock + every as real);
      if r == Success(true) {
        S.RescheduleKeeps(old(SliceOf(id)), id, every, clock);
        Log(Event.Rescheduled(id, every, clock + every as real));
      }
      KeepInv(id);
    }

    // ------------------------------------------------------------------ the turns of the household

    /** Everyone's share of a step that touches whole turns. */
    twostate predicate TurnMoved(mine: string)
      reads this, store
    {
      && clock == old(clock) && old(log) <= log
      && S.OwnerMoved(old(SliceOf(mine)), SliceOf(mine), clock)
    }

    method TurnBegins(confirms: bool, ghost mine: string)
      requires Inv()
      modifies this`turns, this`nextTurn, this`log
      ensures Inv() && TurnMoved(mine)
    {
      hide SeenOf, TurnOf, T.Fit, T.StandsOf, Safe, S.Fine, S.OwnerMoved, Note;
      T.FitBegan(turns, nextTurn, log, confirms);
      NotBegun();
      LogWide(Turned(nextTurn, Opened));
      turns, nextTurn := T.Began(turns, nextTurn, confirms), nextTurn + 1;
      forall id ensures JobInv(id) && SliceOf(id) == old(SliceOf(id)) {
        assert old(JobInv(id));
        T.BeganStands(old(turns), old(nextTurn), confirms, id);
        S.TurnBeginKeeps(old(SliceOf(id)), id, old(nextTurn), clock);
      }
      S.OwnerIdle(SliceOf(mine), clock);
    }

    lemma NotBegun()
      requires T.Fit(turns, nextTurn, log)
      ensures nextTurn !in turns && TurnOf(log, nextTurn).Unopened?
    {
    }

    lemma Running(t: nat)
      requires T.Fit(turns, nextTurn, log) && t in turns
      ensures t < nextTurn && T.WellKept(turns[t]) && T.Matches(turns[t], TurnOf(log, t))
    {
    }

    /** The model's turn failed, or could not be saved: every reminder it saved is to be cancelled. */
    method TurnFails(t: nat, ghost mine: string)
      requires Inv() && t in turns && turns[t].phase.Asking? && !turns[t].confirms
      modifies this`turns, this`log
      ensures Inv() && TurnMoved(mine)
    {
      hide SeenOf, TurnOf, T.Fit, T.StandsOf, Safe, S.Fine, S.OwnerMoved, Note, T.Failing;
      Running(t);
      T.FitTurned(turns, nextTurn, log, t, Failed, turns[t].(phase := T.Rolling, left := turns[t].saved));
      LogWide(Turned(t, Failed));
      turns := T.RollingBack(turns, t);
      forall id ensures JobInv(id) && S.OwnerMoved(old(SliceOf(id)), SliceOf(id), clock) {
        assert old(JobInv(id));
        InPhase(old(turns), id, t);
        T.RollingStands(old(turns), t, id);
        S.TurnFailKeeps(old(SliceOf(id)), id, t, clock);
        assert SliceOf(id) == S.Turned(old(SliceOf(id)), id, t, Failed, T.Failing(T.StandsOf(old(turns), id), t));
      }
    }

    lemma InPhase(turns: T.Turns, id: string, t: nat)
      ensures t in T.StandsOf(turns, id) ==>
                t in turns && T.StandsOf(turns, id)[t] == T.Stand(turns[t].phase, id in turns[t].left)
    {
    }

    /** One cancel of the rollback. It may fail; the next one is tried all the same. */
    method TurnCancelsNext(t: nat, ghost mine: string)
      requires Inv() && t in turns && turns[t].phase.Rolling? && turns[t].left != []
      modifies store, this`turns, this`log
      ensures Inv() && TurnMoved(mine)
    {
      hide SeenOf, TurnOf, T.Fit, T.StandsOf, Safe, S.Fine, S.OwnerMoved, S.Tried, Note, Allowed, S.Cancelled,
        T.WellKept, T.Matches, R.Stopped;
      var id := turns[t].left[0];
      assert JobInv(id);
      Running(t);
      LeftStands(t);
      S.TriedKeeps(SliceOf(id), id, t, clock);
      S.TriedInVainKeeps(SliceOf(id), id, t, clock);
      S.OwnerIdle(SliceOf(mine), clock);
      TryCancel(id);
      TryNext(t);
      KeepInv(id);
    }

    lemma IsTried(p: Slice, q: Slice, t: nat)
      requires q == p.(memory := p.memory.(stands := p.memory.stands[t := T.Stand(T.Rolling, false)]))
      ensures q == S.Tried(p, t)
    {
    }

    /** The cancel itself: the row is cancelled, or was already, or the write fails. */
    method TryCancel(id: string)
      requires Inv() && id in store.jobs
      requires Allowed(SeenOf(log, id), Event.CancelFailed(id))
      requires SliceOf(id).row.value.Active() ==> Allowed(SeenOf(log, id), Event.Cancelled(id, false))
      modifies store, this`log
      ensures old(log) <= log && Only(id)
      ensures var was := old(SliceOf(id));
              || SliceOf(id) == was.(seen := Note(was.seen, Event.CancelFailed(id), id))
              || SliceOf(id) == if was.row.value.Active() then S.Cancelled(was, id, clock, false) else was
    {
      hide SeenOf, TurnOf, T.Fit, T.StandsOf, Safe, S.Fine, Note, Allowed;
      var r := store.CancelJob(id, clock);
      if r.Failure? {
        Log(Event.CancelFailed(id));
      } else if r.value {
        Log(Event.Cancelled(id, false));
      }
    }

    lemma LeftStands(t: nat)
      requires t in turns && turns[t].left != [] && T.WellKept(turns[t])
      ensures t in T.StandsOf(turns, turns[t].left[0]) && T.StandsOf(turns, turns[t].left[0])[t].left
    {
    }

    /** One reminder less to cancel; only it stands differently. */
    method TryNext(t: nat)
      requires T.Fit(turns, nextTurn, log) && t in turns && turns[t].phase.Rolling? && turns[t].left != []
      modifies this`turns
      ensures T.Fit(turns, nextTurn, log)
      ensures SliceOf(old(turns)[t].left[0]) == S.Tried(old(SliceOf(turns[t].left[0])), t)
      ensures forall other :: other != old(turns)[t].left[0] ==> SliceOf(other) == old(SliceOf(other))
    {
      hide T.Fit, T.StandsOf;
      Running(t);
      T.TriedIsKept(turns[t]);
      forall id ensures T.StandsOf(T.TriedFirst(turns, t), id) ==
                          if id == turns[t].left[0] then T.StandsOf(turns, id)[t := T.Stand(T.Rolling, false)]
                          else T.StandsOf(turns, id)
      {
        T.TriedStands(turns, t, id);
      }
      T.FitChanged(turns, nextTurn, log, t, turns[t].(left := turns[t].left[1..]));
      turns := T.TriedFirst(turns, t);
      IsTried(old(SliceOf(turns[t].left[0])), SliceOf(old(turns)[t].left[0]), t);
    }

    /** All are tried: the failed turn lets go of its reminders before it says that it failed. */
    method TurnClears(t: nat, ghost mine: string)
      requires Inv() && t in turns && turns[t].phase.Rolling? && turns[t].left == []
      modifies this`turns
      ensures Inv() && TurnMoved(mine)
    {
      hide SeenOf, TurnOf, T.Fit, T.StandsOf, Safe, S.Fine, S.OwnerMoved, Note;
      Running(t);
      T.FitChanged(turns, nextTurn, log, t, turns[t].(phase := T.Apologising, saved := [], left := []));
      turns := T.Cleared(turns, t);
      forall id ensures JobInv(id) && S.OwnerMoved(old(SliceOf(id)), SliceOf(id), clock) {
        assert old(JobInv(id));
        InPhase(old(turns), id, t);
        T.ClearedStands(old(turns), t, id);
        S.TurnLeaveKeeps(old(SliceOf(id)), id, t, clock);
      }
    }

    /** The turn is saved and its reply goes out, whether or not it arrives. */
    method TurnReplies(t: nat, ghost mine: string)
      requires Inv() && t in turns && turns[t].phase.Asking?
      modifies this`turns, this`log
      ensures Inv() && TurnMoved(mine)
    {
      hide SeenOf, TurnOf, T.Fit, T.StandsOf, Safe, S.Fine, S.OwnerMoved, Note, T.Replied;
      Running(t);
      T.FitTurned(turns, nextTurn, log, t, Answered, turns[t].(phase := T.Answering));
      LogWide(Turned(t, Answered));
      turns := T.Replying(turns, t);
      forall id ensures JobInv(id) && S.OwnerMoved(old(SliceOf(id)), SliceOf(id), clock) {
        assert old(JobInv(id));
        InPhase(old(turns), id, t);
        T.ReplyingStands(old(turns), t, id);
        S.TurnReplyKeeps(old(SliceOf(id)), id, t, clock);
        assert SliceOf(id) == S.Turned(old(SliceOf(id)), id, t, Answered, T.Replied(T.StandsOf(old(turns), id), t));
      }
    }

    /** An exception the channel does not catch closes the turn at once. */
    method TurnBreaks(t: nat, ghost mine: string)
      requires Inv() && t in turns && turns[t].phase.Asking?
      modifies this`turns, this`log
      ensures Inv() && TurnMoved(mine)
    {
      hide SeenOf, TurnOf, T.Fit, T.StandsOf, Safe, S.Fine, S.OwnerMoved, Note;
      Running(t);
      T.FitBroken(turns, nextTurn, log, t);
      LogWide(Turned(t, BrokenOff));
      turns := turns - {t};
      forall id ensures JobInv(id) && S.OwnerMoved(old(SliceOf(id)), SliceOf(id), clock) {
        assert old(JobInv(id));
        InPhase(old(turns), id, t);
        T.ClosedStands(old(turns), t, id);
        S.TurnBreakKeeps(old(SliceOf(id)), id, t, clock);
        assert SliceOf(id) == S.Turned(old(SliceOf(id)), id, t, BrokenOff, T.StandsOf(old(turns), id) - {t});
      }
    }

    /** The reply or the apology was attempted, and the turn leaves the list of open turns. */
    method TurnCloses(t: nat, ghost mine: string)
      requires Inv() && t in turns && (turns[t].phase.Answering? || turns[t].phase.Apologising?)
      modifies this`turns
      ensures Inv() && TurnMoved(mine)
    {
      hide SeenOf, TurnOf, T.Fit, T.StandsOf, Safe, S.Fine, S.OwnerMoved, Note;
      Running(t);
      T.FitClosed(turns, nextTurn, log, t);
      turns := turns - {t};
      forall id ensures JobInv(id) && S.OwnerMoved(old(SliceOf(id)), SliceOf(id), clock) {
        assert old(JobInv(id));
        InPhase(old(turns), id, t);
        T.ClosedStands(old(turns), t, id);
        S.TurnLeaveKeeps(old(SliceOf(id)), id, t, clock);
      }
    }

    /** One step of one turn, whichever its phase allows. */
    method TurnActs(ghost mine: string)
      requires Inv()
      modifies store, this`turns, this`nextTurn, this`log
      ensures Inv() && TurnMoved(mine)
    {
      hide SeenOf, TurnOf, T.Fit, T.StandsOf, Safe, S.Fine, S.OwnerMoved, Note;
      S.OwnerIdle(SliceOf(mine), clock);
      var t: nat, which: nat, confirms: bool := *, *, *;
      if t !in turns {
        TurnBegins(confirms, mine);
      } else {
        match turns[t].phase {
          case Asking =>
            if which == 0 {
              TurnReplies(t, mine);
            } else if which == 1 {
              TurnBreaks(t, mine);
            } else if !turns[t].confirms {
              TurnFails(t, mine);
            }
          case Rolling =>
            if turns[t].left == [] {
              TurnClears(t, mine);
            } else {
              TurnCancelsNext(t, mine);
            }
          case Answering => TurnCloses(t, mine);
          case Apologising => TurnCloses(t, mine);
        }
      }
    }

    // ------------------------------------------------------------------ everything others do

    /** Any number of owner actions, in any order, at any time from now on. */
    method OwnersAct(ghost mine: string)
      requires Inv()
      modifies store, this`log, this`turns, this`nextTurn, this`clock
      ensures old(log) <= log
      ensures Inv() && clock >= old(clock)
      ensures S.OwnerMoved(old(SliceOf(mine)), SliceOf(mine), old(clock))
    {
      hide SeenOf, TurnOf, T.Fit, T.StandsOf, Safe, S.Fine, S.OwnerMoved;
      S.OwnerIdle(SliceOf(mine), clock);
      var steps: nat := *;
      while steps > 0
        invariant Inv() && clock >= old(clock) && old(log) <= log
        invariant S.OwnerMoved(old(SliceOf(mine)), SliceOf(mine), old(clock))
      {
        steps := steps - 1;
        ghost var was, then_ := SliceOf(mine), clock;
        OwnerActs(mine);
        S.OwnerMovedTwice(old(SliceOf(mine)), was, SliceOf(mine), old(clock), then_);
      }
    }

    method OwnerActs(ghost mine: string)
      requires Inv()
      modifies store, this`log, this`turns, this`nextTurn, this`clock
      ensures old(log) <= log
      ensures Inv() && clock >= old(clock)
      ensures S.OwnerMoved(old(SliceOf(mine)), SliceOf(mine), old(clock))
    {
      hide SeenOf, TurnOf, T.Fit, T.StandsOf, Safe, S.Fine, S.OwnerMoved;
      S.OwnerIdle(SliceOf(mine), clock);
      var which: int, id: string, saver: Option<nat>, every: int, job: Job, wait: real := *, *, *, *, *, *;
      if which == 0 {
        var _ := CancelRow(id, false);
      } else if which == 1 && every >= MIN_EVERY_SECONDS {
        OwnerReschedules(id, every);
      } else if which == 2 && S.Newborn(job)
                && (saver.Some? ==> saver.value in turns && turns[saver.value].phase.Asking? && !job.about.relay) {
        OwnerCreates(job, saver);
      } else if which == 3 {
        TurnActs(mine);
      } else if wait >= 0.0 {
        clock := clock + wait;
        forall other ensures JobInv(other) {
          assert old(JobInv(other));
          S.Later(SliceOf(other), other, old(clock), clock);
        }
      }
    }

    /** The process dies and starts again: the table stays, everything in memory is gone. */
    method Restart()
      requires Inv()
      modifies this
      ensures old(log) <= log
      ensures Inv() && busy == None && waiting == map[] && clock >= old(clock)
    {
      hide SeenOf, TurnOf, T.Fit, T.StandsOf, Safe, S.Fine, Note, Allowed;
      T.FitRestarted(turns, nextTurn, log);
      T.NoTurnsNoStands();
      LogWide(Event.Restarted);
      retryAt, retryDelay := map[], map[];
      relaySent, relayRecorded, notified, turns := {}, {}, {}, map[];
      busy, waiting := None, map[];
      forall id ensures JobInv(id) {
        assert old(JobInv(id));
        S.RestartKeeps(old(SliceOf(id)), id, clock);
        assert SliceOf(id) == S.Restarted(old(SliceOf(id)), id);
      }
    }

    // ------------------------------------------------------------------ bookkeeping

    /** This job is being fired, and no turn still open saved it. */
    ghost predicate Firing(id: string)
      reads this, store
    {
      && Inv() && busy == Some(id) && id in store.jobs && id !in waiting && T.StandsOf(turns, id) == map[]
      && SeenOf(log, id).firing.free
    }

    ghost predicate Quiet(id: string)
      reads this, store
    {
      S.Quiet(SliceOf(id), id, clock)
    }

    /** Something failed for this job since the poll, and it was not held off for that yet. */
    ghost predicate Faulty(id: string)
      reads this`log
    {
      SeenOf(log, id).firing.faulted
    }

    /** A call or a write made for this job failed. */
    ghost method Fault(id: string)
      requires Firing(id)
      modifies this`log
      ensures old(log) <= log && Firing(id) && Faulty(id)
      ensures var was := old(SliceOf(id));
              SliceOf(id) == was.(seen := was.seen.(firing := was.seen.firing.(faulted := true)))
    {
      hide SeenOf, TurnOf, T.Fit, T.StandsOf, Safe, S.Fine, Note, Allowed;
      assert JobInv(id);
      S.FaultKeeps(SliceOf(id), id, clock);
      Log(Event.Faulted(id));
      assert SliceOf(id) == S.Faulted(old(SliceOf(id)), id);
      KeepInv(id);
    }

    /** Hold off the next attempt, doubling each time it fails. */
    method Defer(id: string)
      requires Firing(id) && Faulty(id)
      modifies this`retryAt, this`retryDelay, this`log
      ensures old(log) <= log
      ensures Firing(id) && Quiet(id) && SliceOf(id) == S.Deferred(old(SliceOf(id)), id, clock)
      ensures R.HoldsOff(log, |old(log)|, id)
    {
      hide SeenOf, TurnOf, T.Fit, T.StandsOf, Safe, S.Fine, S.Linked, Allowed, Note, Says, Says, R.Fired;
      assert JobInv(id);
      S.DeferKeeps(SliceOf(id), id, clock);
      var delay := if id in retryDelay then retryDelay[id] else FIRST_RETRY_SECONDS;
      retryAt := retryAt[id := clock + delay];
      retryDelay := retryDelay[id := Min(2.0 * delay, MAX_RETRY_SECONDS)];
      Log(Event.Deferred(id, clock, delay));
      assert log[|old(log)|].Deferred?;
      KeepInv(id);
    }

    method Forget(id: string)
      modifies this`relaySent, this`relayRecorded, this`notified
      ensures relaySent == old(relaySent) - {id}
      ensures relayRecorded == old(relayRecorded) - {id}
      ensures notified == old(notified) - {id}
    {
      relaySent := relaySent - {id};
      relayRecorded := relayRecorded - {id};
      notified := notified - {id};
    }

    method ClearBackoff(id: string)
      requires Firing(id)
      modifies this`retryAt, this`retryDelay, this`log
      ensures old(log) <= log
      ensures Firing(id) && SliceOf(id) == S.Settled(old(SliceOf(id)), id)
    {
      hide SeenOf, TurnOf, T.Fit, T.StandsOf, Safe, S.Fine, Note, Allowed;
      assert JobInv(id);
      S.SettleKeeps(SliceOf(id), id, clock);
      retryAt := retryAt - {id};
      retryDelay := retryDelay - {id};
      Log(Event.Settled(id));
      KeepInv(id);
    }

    /** An await while this job is being fired. False when the process died there. */
    method Await(id: string) returns (alive: bool)
      requires Firing(id)
      modifies this, store
      ensures old(log) <= log
      ensures alive ==> waiting == old(waiting) && clock >= old(clock)
      ensures alive ==> Firing(id) && clock >= old(clock)
      ensures alive ==> S.OwnerMoved(old(SliceOf(id)), SliceOf(id), old(clock))
      ensures !alive ==> Inv() && busy == None && waiting == map[]
    {
      hide SeenOf, TurnOf, T.Fit, T.StandsOf, Safe, S.Fine;
      OwnersAct(id);
      alive := *;
      if !alive {
        Restart();
      }
    }

    // ------------------------------------------------------------------ the owner's report

    /** One attempt to text the owner. The phone may have it even when the process dies waiting. */
    method NotifyJob(job: Job) returns (e: Exit, sent: bool)
      requires Firing(job.about.id) && store.jobs[job.about.id].pending == job.pending
      requires job.pending.text.Some? && !job.pending.delivered && job.about.id !in notified
      requires !SeenOf(log, job.about.id).gone
      modifies this, store
      ensures old(log) <= log
      ensures e != Died ==> waiting == old(waiting) && clock >= old(clock)
      ensures e != Died ==> Firing(job.about.id) && store.jobs[job.about.id].pending == job.pending
      ensures e == Died ==> Inv() && busy == None && waiting == map[] && !sent
      ensures e != Raised && (sent ==> job.about.id in notified) && (e == Returned && !sent ==> Faulty(job.about.id))
    {
      hide SeenOf, TurnOf, T.Fit, T.StandsOf, Safe, S.Fine, S.Linked, Allowed;
      var id := job.about.id;
      e, sent := Returned, false;
      var limited: bool := *;
      if limited {
        Fault(id);
        return;
      }
      OwnersAct(id);
      assert JobInv(id);
      var accepted: bool, dies: bool := *, *;
      if accepted {
        RememberNotice(id, job.pending.text.value);
        sent := true;
      } else {
        Fault(id);
      }
      if dies {
        Restart();
        e, sent := Died, false;
      }
    }

    /** The notice is in the log and in memory. */
    method RememberNotice(id: string, text: string)
      requires Firing(id) && store.jobs[id].pending.text == Some(text) && !store.jobs[id].pending.delivered
      requires id !in notified
      requires !SeenOf(log, id).gone
      modifies this`log, this`notified
      ensures old(log) <= log && Firing(id) && id in notified
    {
      hide SeenOf, TurnOf, T.Fit, T.StandsOf, Safe, S.Fine, S.Linked, Allowed, Note;
      assert JobInv(id);
      S.NotifyKeeps(SliceOf(id), id, clock);
      Log(Event.Notified(id, text));
      notified := notified + {id};
      assert SliceOf(id) == S.Notified(old(SliceOf(id)), id, text);
      KeepInv(id);
    }

    /** Tell the owner, unless the phone already has it. `go` when the row says it went out. */
    method Notify(job: Job) returns (e: Exit, go: bool)
      requires Firing(job.about.id) && store.jobs[job.about.id].pending == job.pending
      requires job.pending.text.Some? && !job.pending.delivered
      requires !SeenOf(log, job.about.id).gone
      modifies this, store
      ensures old(log) <= log
      ensures e != Died ==> waiting == old(waiting) && clock >= old(clock)
      ensures e != Died ==> Firing(job.about.id)
      ensures e == Died ==> Inv() && busy == None && waiting == map[]
      ensures e != Raised && (e == Returned && !go ==> Quiet(job.about.id))
      ensures go ==> e == Returned && store.jobs[job.about.id].pending == job.Delivered().pending
      ensures e == Returned && !go ==> R.HoldsOff(log, |old(log)|, job.about.id)
    {
      hide SeenOf, TurnOf, T.Fit, T.StandsOf, Safe, S.Fine, S.Linked, Allowed, Note, Says, Says, S.Quiet, R.Fired;
      var id := job.about.id;
      go := false;
      if id !in notified {
        var sent: bool;
        e, sent := NotifyJob(job);
        if e == Died {
          return;
        }
        if !sent {
          Defer(id);
          return;
        }
      }
      var marked := MarkDelivered(id);
      if marked.Failure? {
        Fault(id);
        Defer(id);
        return Returned, false;
      }
      if !marked.value {
        // Nobody but the runner empties an outbox, so the mark always finds one.
        assert false;
      }
      return Returned, true;
    }

    /** The write itself: the row says that the report went out, or nothing was written. */
    method MarkDelivered(id: string) returns (r: Result<bool, StoreError>)
      requires Firing(id) && store.jobs[id].pending.text.Some? && id in notified
      modifies store
      ensures Firing(id) && (r.Success? ==> r.value)
      ensures store.jobs[id].pending ==
                if r.Success? then old(store.jobs)[id].Delivered().pending else old(store.jobs)[id].pending
    {
      hide SeenOf, TurnOf, T.Fit, T.StandsOf, Safe, S.Fine, S.Linked, Note, Allowed;
      assert JobInv(id);
      S.DeliveredKeeps(SliceOf(id), id, clock);
      r := store.MarkJobDelivered(id);
      KeepInv(id);
    }

    /** The report went out and is in the history: end the run. */
    method Finish(job: Job) returns (e: Exit)
      requires Firing(job.about.id)
      requires job.pending.after.Some?
      requires store.jobs[job.about.id].pending == job.pending && job.pending.text.Some? && job.pending.delivered
      requires SeenOf(log, job.about.id).kept
      modifies this, store
      ensures old(log) <= log
      ensures e != Died ==> waiting == old(waiting) && clock >= old(clock)
      ensures e != Died && Firing(job.about.id) && (e == Raised ==> Faulty(job.about.id))
      ensures e == Returned ==> Quiet(job.about.id) && store.jobs[job.about.id].pending == EMPTY_OUTBOX
      ensures e == Returned ==> R.Ends(log, |old(log)|, job.about.id)
      ensures e == Returned ==> job.about.id !in retryAt && job.about.id !in retryDelay
      ensures e == Returned && job.pending.after == Some(Cancel) ==> !store.jobs[job.about.id].Active()
      ensures e == Returned && job.pending.after == Some(Advance) ==>
                R.Advances(log, |old(log)|, job.about.id) || !store.jobs[job.about.id].Active()
    {
      hide SeenOf, TurnOf, T.Fit, T.StandsOf, Safe, S.Fine, S.Linked;
      var id := job.about.id;
      ClearBackoff(id);
      if job.pending.after == Some(Cancel) {
        e := FinishByCancel(id);
      } else {
        assert SliceOf(id).row == old(SliceOf(id).row);
        assert job.pending.after.value.Advance?;
        e := FinishByAdvance(id);
      }
    }

    method FinishByCancel(id: string) returns (e: Exit)
      requires Firing(id) && S.IsOver(store.jobs[id], SeenOf(log, id))
      modifies store, this`log, this`relaySent, this`relayRecorded, this`notified
      ensures old(log) <= log
      ensures e != Died && Firing(id) && (e == Raised ==> Faulty(id))
      ensures e == Returned ==> Quiet(id) && store.jobs[id].pending == EMPTY_OUTBOX && !store.jobs[id].Active()
      ensures e == Returned ==> R.Ends(log, |old(log)|, id)
    {
      hide SeenOf, TurnOf, T.Fit, T.StandsOf, Safe, Note, Allowed, S.Fine, S.Linked, S.Quiet;
      var cancelled := CancelRow(id, true);
      if cancelled.Failure? {
        Fault(id);
        return Raised;
      }
      e := EmptyCancelled(id);
    }

    method EmptyCancelled(id: string) returns (e: Exit)
      requires Firing(id) && store.jobs[id].pending.delivered && !store.jobs[id].Active() && SeenOf(log, id).kept
      modifies store, this`log, this`relaySent, this`relayRecorded, this`notified
      ensures old(log) <= log
      ensures e != Died && Firing(id) && (e == Raised ==> Faulty(id))
      ensures e == Returned ==> Quiet(id) && store.jobs[id].pending == EMPTY_OUTBOX && !store.jobs[id].Active()
      ensures e == Returned ==> R.Ends(log, |old(log)|, id)
    {
      hide SeenOf, TurnOf, T.Fit, T.StandsOf, Safe, Note, Allowed, S.Fine, S.Linked, S.Quiet, R.HoldsOff, R.Stopped,
        Says, Says;
      assert JobInv(id);
      S.ClearKeeps(SliceOf(id), id, clock);
      ghost var was := SliceOf(id);
      var cleared := TryEmpty(id);
      if cleared.Failure? {
        KeepInv(id);
        Fault(id);
        return Raised;
      }
      ghost var emptied := SliceOf(id);
      Forget(id);
      IsEmptied(was, emptied, SliceOf(id), id);
      KeepInv(id);
      S.QuietWhenSettled(SliceOf(id), id, clock);
      return Returned;
    }

    lemma IsEmptied(p: Slice, q: Slice, forgotten: Slice, id: string)
      requires p.row.Some? && forgotten == q.(memory := S.Forgotten(q.memory))
      requires q == p.(row := Some(p.row.value.Cleared()), seen := Note(p.seen, Event.Emptied(id), id))
      ensures forgotten == S.Emptied(p, id)
    {
    }

    /** The write itself, with what memory has of the run still there. */
    method TryEmpty(id: string) returns (r: Result<bool, StoreError>)
      requires Inv() && id in store.jobs && Allowed(SeenOf(log, id), Event.Emptied(id))
      modifies store, this`log
      ensures old(log) <= log && Only(id) && id in store.jobs
      ensures r.Failure? ==> SliceOf(id) == old(SliceOf(id))
      ensures r.Success? ==>
                && store.jobs[id] == old(store.jobs)[id].Cleared() && R.Ends(log, |old(log)|, id)
                && var was := old(SliceOf(id));
                   SliceOf(id) == was.(row := Some(was.row.value.Cleared()),
                                       seen := Note(was.seen, Event.Emptied(id), id))
      ensures SeenOf(log, id).firing.free == SeenOf(old(log), id).firing.free
    {
      hide SeenOf, TurnOf, T.Fit, T.StandsOf, Safe, Note, Allowed, S.Fine;
      r := store.ClearJobOutbox(id);
      if r.Success? {
        Log(Event.Emptied(id));
        assert log[|old(log)|] == Event.Emptied(id);
      }
    }

    /** Schedule the next run. A run that reported also forgets what it remembered. */
    method AdvanceRow(id: string, reported: bool) returns (r: Result<bool, StoreError>)
      requires Firing(id) && S.MayAdvance(store.jobs[id], SeenOf(log, id))
      requires reported || (id !in relaySent && id !in relayRecorded && id !in notified)
      modifies store, this`log, this`relaySent, this`relayRecorded, this`notified
      ensures old(log) <= log
      ensures Firing(id)
      ensures r == Success(true) ==>
                Quiet(id) && store.jobs[id].pending == EMPTY_OUTBOX && R.Advances(log, |old(log)|, id)
      ensures r == Success(false) ==> !store.jobs[id].Active() && R.Stopped(log, id)
      ensures r != Success(true) ==> SliceOf(id) == old(SliceOf(id))
    {
      hide SeenOf, TurnOf, T.Fit, T.StandsOf, Safe, S.Fine, S.Linked, Allowed, S.MayAdvance, S.Quiet, Note, NextHold;
      assert JobInv(id);
      ghost var was := SliceOf(id);
      r := TryAdvance(id);
      if r != Success(true) {
        KeepInv(id);
        S.StoppedIsSeen(SliceOf(id), id, clock);
        return;
      }
      S.AdvanceKeeps(was, id, clock);
      ghost var moved := SliceOf(id);
      if reported {
        Forget(id);
      }
      assert SliceOf(id) == moved.(memory := SliceOf(id).memory);
      IsAdvanced(was, moved, SliceOf(id), id, clock);
      KeepInv(id);
    }

    lemma IsAdvanced(p: Slice, q: Slice, forgotten: Slice, id: string, now: Time)
      requires p.row.Some? && q == S.Moved(p, id, now) && forgotten == q.(memory := S.Forgotten(q.memory))
      ensures forgotten == S.Advanced(p, id, now)
    {
    }

    /** The write itself, with what memory has of the run still there. */
    method TryAdvance(id: string) returns (r: Result<bool, StoreError>)
      requires Inv() && id in store.jobs && S.MayAdvance(store.jobs[id], SeenOf(log, id))
      modifies store, this`log
      ensures old(log) <= log && Only(id) && id in store.jobs
      ensures r == Success(true) ==>
                && old(store.jobs)[id].Active()
                && SliceOf(id) == S.Moved(old(SliceOf(id)), id, clock) && store.jobs[id].pending == EMPTY_OUTBOX
                && R.Advances(log, |old(log)|, id)
      ensures r == Success(false) ==> !store.jobs[id].Active()
      ensures r != Success(true) ==> SliceOf(id) == old(SliceOf(id))
      ensures SeenOf(log, id).firing.free == SeenOf(old(log), id).firing.free
    {
      hide SeenOf, TurnOf, T.Fit, T.StandsOf, Safe, S.Fine, S.Linked, Allowed, Note, NextHold;
      assert JobInv(id);
      r := store.AdvanceJob(id, clock);
      if r == Success(true) {
        S.MayMove(old(SliceOf(id)), id, clock);
        Log(Event.Advanced(id, clock, store.jobs[id].nextRunAt));
        assert log[|old(log)|].Advanced?;
      }
    }

    method FinishByAdvance(id: string) returns (e: Exit)
      requires Firing(id) && store.jobs[id].pending.delivered && S.MayAdvance(store.jobs[id], SeenOf(log, id))
      requires SeenOf(log, id).kept
      modifies store, this`log, this`relaySent, this`relayRecorded, this`notified
      ensures old(log) <= log
      ensures e != Died && Firing(id) && (e == Raised ==> Faulty(id))
      ensures e == Returned ==> Quiet(id) && store.jobs[id].pending == EMPTY_OUTBOX
      ensures e == Returned ==> R.Advances(log, |old(log)|, id) || !store.jobs[id].Active()
      ensures e == Returned ==> R.Ends(log, |old(log)|, id)
    {
      hide SeenOf, TurnOf, T.Fit, T.StandsOf, Safe, S.Fine, S.Linked;
      var advanced := AdvanceRow(id, true);
      if advanced.Failure? {
        Fault(id);
        return Raised;
      }
      if advanced.value {
        return Returned;
      }
      assert SliceOf(id).seen.kept;
      e := CloseCancelled(id);
    }

    /** The job was cancelled while its report was going out: drop what is left of the run. */
    method CloseCancelled(id: string) returns (e: Exit)
      requires Firing(id) && store.jobs[id].pending.delivered && !store.jobs[id].Active() && SeenOf(log, id).kept
      modifies store, this`log, this`relaySent, this`relayRecorded, this`notified
      ensures old(log) <= log
      ensures e != Died && Firing(id) && (e == Raised ==> Faulty(id))
      ensures e == Returned ==> Quiet(id) && store.jobs[id].pending == EMPTY_OUTBOX && !store.jobs[id].Active()
      ensures e == Returned ==> R.Ends(log, |old(log)|, id)
    {
      hide SeenOf, TurnOf, T.Fit, T.StandsOf, Safe, S.Fine, S.Linked, Allowed, Note, R.Ends;
      assert JobInv(id);
      S.ForgetKeeps(SliceOf(id), id, clock);
      Forget(id);
      KeepInv(id);
      e := EmptyCancelled(id);
    }

    /** Send the outbox, record it in the owner's history, end the run. Each part is retried on its own. */
    method Deliver(job: Job) returns (e: Exit)
      requires Firing(job.about.id) && store.jobs[job.about.id].pending == job.pending
      requires job.pending.text.Some? && job.pending.after.Some?
      requires job.pending.delivered || !SeenOf(log, job.about.id).gone
      modifies this, store
      ensures old(log) <= log && (e == Raised ==> Faulty(job.about.id))
      ensures e != Died ==> waiting == old(waiting) && clock >= old(clock)
      ensures e != Died ==> Firing(job.about.id)
      ensures e == Died ==> Inv() && busy == None && waiting == map[]
      ensures e == Returned ==> Quiet(job.about.id)
      ensures e == Returned ==> R.Ends(log, |old(log)|, job.about.id) || R.HoldsOff(log, |old(log)|, job.about.id)
    {
      hide SeenOf, TurnOf, T.Fit, T.StandsOf, Safe, S.Fine, S.Linked;
      var id := job.about.id;
      if !job.pending.delivered {
        var go: bool;
        e, go := Notify(job);
        if !go {
          return;
        }
      }
      e := RecordReport(job.Delivered());
    }

    /** The report went out: record it in the owner's history and end the run. */
    method RecordReport(job: Job) returns (e: Exit)
      requires Firing(job.about.id) && store.jobs[job.about.id].pending == job.pending
      requires job.pending.text.Some? && job.pending.after.Some? && job.pending.delivered
      modifies this, store
      ensures old(log) <= log && (e == Raised ==> Faulty(job.about.id))
      ensures e != Died ==> waiting == old(waiting) && clock >= old(clock)
      ensures e != Died ==> Firing(job.about.id)
      ensures e == Died ==> Inv() && busy == None && waiting == map[]
      ensures e == Returned ==> Quiet(job.about.id)
      ensures e == Returned ==> R.Ends(log, |old(log)|, job.about.id) || R.HoldsOff(log, |old(log)|, job.about.id)
    {
      hide SeenOf, TurnOf, T.Fit, T.StandsOf, Safe, S.Fine, S.Linked, Allowed, Note, S.Quiet;
      var id := job.about.id;
      var alive := Await(id);
      if !alive {
        return Died;
      }
      var persisted: bool := *;
      if !persisted {
        Fault(id);
        Defer(id);
        return Returned;
      }
      Append(id, Report(job.pending.text.value, job.pending.untrusted, job.pending.after.value));
      e := Finish(job);
    }

    /** The owner's history has what the outbox says, label and all. */
    ghost method Append(id: string, report: Report)
      requires Firing(id)
      requires store.jobs[id].pending == Outbox(Some(report.text), report.untrusted, Some(report.after), true)
      modifies this`log
      ensures log == old(log) + [Event.Appended(id, report)]
      ensures Firing(id) && SeenOf(log, id).kept && SliceOf(id).row == old(SliceOf(id).row)
    {
      hide SeenOf, TurnOf, T.Fit, T.StandsOf, Safe, S.Fine, Note, Allowed;
      assert JobInv(id);
      S.AppendKeeps(SliceOf(id), id, clock);
      Log(Event.Appended(id, report));
      assert SliceOf(id) == S.Kept(old(SliceOf(id)), id, report);
      KeepInv(id);
    }

    /** The job was cancelled before anything was queued: its run is forgotten. */
    method ForgetStopped(id: string)
      requires Firing(id) && !store.jobs[id].Active() && store.jobs[id].pending.text.None?
      modifies this`relaySent, this`relayRecorded, this`notified
      ensures Firing(id) && Quiet(id) && R.Stopped(log, id)
    {
      hide SeenOf, TurnOf, T.Fit, T.StandsOf, Safe, S.Fine, S.Linked, Note, Allowed;
      assert JobInv(id);
      S.StoppedIsSeen(SliceOf(id), id, clock);
      S.ForgetKeeps(SliceOf(id), id, clock);
      Forget(id);
      KeepInv(id);
      S.QuietWhenSettled(SliceOf(id), id, clock);
    }

    /** Put the report in the outbox and deliver it, unless the job was cancelled while the run was going on. */
    method Queue(job: Job, text: string, untrusted: bool, after: After) returns (e: Exit)
      requires Firing(job.about.id) && store.jobs[job.about.id].pending.text.None?
      requires job.about == store.jobs[job.about.id].about
      requires Says(job.about, SeenOf(log, job.about.id).firing, Report(text, untrusted, after))
      requires job.about.relay ==> SeenOf(log, job.about.id).everSent && SeenOf(log, job.about.id).everRecorded
      requires !SeenOf(log, job.about.id).gone
      modifies this, store
      ensures old(log) <= log && (e == Raised ==> Faulty(job.about.id))
      ensures e != Died ==> waiting == old(waiting) && clock >= old(clock)
      ensures e != Died ==> Firing(job.about.id)
      ensures e == Died ==> Inv() && busy == None && waiting == map[]
      ensures e == Returned ==> Quiet(job.about.id)
      ensures e == Returned ==>
                R.Stopped(log, job.about.id) || R.Reports(log, |old(log)|, job.about.id, Report(text, untrusted, after))
    {
      hide SeenOf, TurnOf, T.Fit, T.StandsOf, Safe, S.Fine, S.Linked, Allowed, Note, S.Quiet, R.Ends, R.HoldsOff,
        R.Stopped, Says;
      var id := job.about.id;
      var queued := TryQueue(id, text, untrusted, after);
      if queued.Failure? {
        Fault(id);
        return Raised;
      }
      if !queued.value {
        ForgetStopped(id);
        return Returned;
      }
      ghost var report := Event.Queued(id, Report(text, untrusted, after));
      assert log[|old(log)|] == report;
      e := Deliver(job.Queued(text, untrusted, after));
      assert e == Returned ==> log[|old(log)|] == report;
    }

    /** The write itself: the report is in the outbox, or the job was cancelled, or nothing was written. */
    method TryQueue(id: string, text: string, untrusted: bool, after: After) returns (r: Result<bool, StoreError>)
      requires Firing(id) && store.jobs[id].pending.text.None? && !SeenOf(log, id).gone
      requires Says(store.jobs[id].about, SeenOf(log, id).firing, Report(text, untrusted, after))
      requires store.jobs[id].about.relay ==> SeenOf(log, id).everSent && SeenOf(log, id).everRecorded
      modifies store, this`log
      ensures Firing(id) && !SeenOf(log, id).gone
      ensures log == old(log) + if r == Success(true) then [Event.Queued(id, Report(text, untrusted, after))] else []
      ensures store.jobs[id] ==
                if r == Success(true) then old(store.jobs)[id].Queued(text, untrusted, after) else old(store.jobs)[id]
      ensures r == Success(false) ==> !store.jobs[id].Active()
    {
      hide SeenOf, TurnOf, T.Fit, T.StandsOf, Safe, S.Fine, S.Linked, Allowed, Note, Says;
      assert JobInv(id);
      r := store.QueueJobReport(id, text, untrusted, after);
      if r == Success(true) {
        S.QueueKeeps(old(SliceOf(id)), id, clock, text, untrusted, after);
        Log(Event.Queued(id, Report(text, untrusted, after)));
      }
      KeepInv(id);
    }

    // ------------------------------------------------------------------ relays

    /** The row is still the relay that was read, and says what this process did for it. */
    ghost predicate Relaying(job: Job)
      reads this, store
    {
      && Firing(job.about.id)
      && var p := SliceOf(job.about.id);
      && p.row.value.about == job.about && job.about.relay
      && p.row.value.pending.text.None?
      && p.row.value.relayRecorded == job.relayRecorded
      && (p.seen.recorded ==> job.relayRecorded || p.memory.recorded)
      && !p.seen.gone && p.seen.firing.due && !p.seen.firing.ended && p.seen.firing.result.None?
    }

    /** Send the stored bytes once, or mark a send whose mark failed. `go` when the phone has them. */
    method SendOnce(job: Job) returns (e: Exit, go: bool)
      requires Relaying(job) && store.jobs[job.about.id].relaySent == job.relaySent
      requires SeenOf(log, job.about.id).sent ==> job.relaySent || job.about.id in relaySent
      modifies this, store
      ensures old(log) <= log
      ensures e != Died ==> waiting == old(waiting) && clock >= old(clock)
      ensures e != Died ==> Relaying(job)
      ensures e == Died ==> Inv() && busy == None && waiting == map[]
      ensures e == Raised ==> Faulty(job.about.id)
      ensures e == Returned && !go ==> Quiet(job.about.id)
      ensures go ==> e == Returned && SeenOf(log, job.about.id).everSent
      ensures e == Returned && !go ==> R.HoldsOff(log, |old(log)|, job.about.id) || R.Stopped(log, job.about.id)
    {
      hide SeenOf, TurnOf, T.Fit, T.StandsOf, Safe, S.Fine, S.Linked, Allowed;
      var id := job.about.id;
      assert JobInv(id);
      S.MarksAreTrue(SliceOf(id), id, clock);
      if job.relaySent {
        return Returned, true;
      }
      if id in relaySent {
        label before:
        assert JobInv(id);
        S.MarkSentKeeps(SliceOf(id), id, clock);
        // The set already stops a second send, so a failed mark does not stop the record.
        var _ := store.MarkRelaySent(id);
        KeepInv@before(id);
        return Returned, true;
      }
      var raised: bool;
      e, raised := DeliverRelay(job);
      if e == Died {
        return e, false;
      }
      if raised && id !in relaySent {
        var current := store.FindById(id);
        if current.Failure? {
          return Raised, false;
        }
        if !(current.value.Some? && current.value.value.relaySent) {
          Defer(id);
          return Returned, false;
        }
      }
      assert JobInv(id);
      S.MarksAreTrue(SliceOf(id), id, clock);
      return Returned, true;
    }

    /** One attempt to text the other phone, marking the row as soon as the phone has accepted. */
    method DeliverRelay(job: Job) returns (e: Exit, raised: bool)
      requires Relaying(job) && !SeenOf(log, job.about.id).sent
      modifies this, store
      ensures old(log) <= log
      ensures e != Died ==> waiting == old(waiting) && clock >= old(clock)
      ensures e != Raised
      ensures e == Returned ==> Relaying(job)
      ensures e == Returned && (!raised || job.about.id in relaySent) ==> SeenOf(log, job.about.id).everSent
      ensures e == Returned && raised ==> Faulty(job.about.id)
      ensures e == Died ==> Inv() && busy == None && waiting == map[]
    {
      hide SeenOf, TurnOf, T.Fit, T.StandsOf, Safe, S.Fine, S.Linked, Allowed;
      var id := job.about.id;
      OwnersAct(id);
      raised := CallPhone(job);
      var dies: bool := *;
      if dies {
        Restart();
        return Died, raised;
      }
      return Returned, raised;
    }

    /** The call itself: refused, or accepted and marked, or accepted without a mark. */
    method CallPhone(job: Job) returns (raised: bool)
      requires Relaying(job) && !SeenOf(log, job.about.id).sent
      modifies store, this`log, this`relaySent
      ensures old(log) <= log && Relaying(job) && (raised ==> Faulty(job.about.id))
      ensures !raised || job.about.id in relaySent ==> SeenOf(log, job.about.id).everSent
    {
      hide SeenOf, TurnOf, T.Fit, T.StandsOf, Safe, S.Fine, S.Linked, Allowed;
      assert JobInv(job.about.id);
      S.MarksAreTrue(SliceOf(job.about.id), job.about.id, clock);
      var accepted: bool := *;
      raised := !accepted;
      if accepted {
        raised := PhoneAccepts(job);
      }
      if raised {
        Fault(job.about.id);
      }
    }

    /** The phone has the bytes: remember it, then mark the row. True when the mark raised. */
    method PhoneAccepts(job: Job) returns (raised: bool)
      requires Relaying(job) && !SeenOf(log, job.about.id).sent
      modifies store, this`log, this`relaySent
      ensures old(log) <= log
      ensures Relaying(job) && SeenOf(log, job.about.id).everSent && job.about.id in relaySent
      ensures log == old(log) + [Event.Sent(job.about.id, job.about.prompt)]
      ensures if raised then store.jobs == old(store.jobs)
              else store.jobs[job.about.id].Active() ==> store.jobs[job.about.id].relaySent
    {
      hide SeenOf, TurnOf, T.Fit, T.StandsOf, Safe, S.Fine, S.Linked, Allowed, Note;
      var id := job.about.id;
      assert JobInv(id);
      S.SendKeeps(SliceOf(id), id, clock);
      Log(Event.Sent(id, job.about.prompt));
      relaySent := relaySent + {id};
      assert SliceOf(id) == S.Sent(old(SliceOf(id)), id, job.about.prompt);
      S.MarkSentKeeps(SliceOf(id), id, clock);
      var marked := store.MarkRelaySent(id);
      KeepInv(id);
      raised := marked.Failure?;
    }

    /** Write the recipient's record once. `go` when it exists and the row says so. */
    method RecordOnce(job: Job) returns (e: Exit, go: bool)
      requires Relaying(job) && SeenOf(log, job.about.id).everSent
      modifies this, store
      ensures old(log) <= log
      ensures e != Died ==> waiting == old(waiting) && clock >= old(clock)
      ensures e != Died ==> Firing(job.about.id)
      ensures e == Died ==> Inv() && busy == None && waiting == map[]
      ensures e != Raised && (e == Returned && !go ==> Quiet(job.about.id))
      ensures go ==> e == Returned && Relaying(job.(relayRecorded := true))
                     && SeenOf(log, job.about.id).everSent && SeenOf(log, job.about.id).everRecorded
      ensures e == Returned && !go ==> R.HoldsOff(log, |old(log)|, job.about.id) || R.Stopped(log, job.about.id)
    {
      hide SeenOf, TurnOf, T.Fit, T.StandsOf, Safe, S.Fine, S.Linked, Allowed;
      var id := job.about.id;
      assert JobInv(id);
      S.MarksAreTrue(SliceOf(id), id, clock);
      if job.relayRecorded {
        return Returned, true;
      }
      if id !in relayRecorded {
        var recorded: bool;
        e, recorded := RecordRelay(job);
        if e == Died {
          return e, false;
        }
        if !recorded {
          Defer(id);
          return Returned, false;
        }
      }
      e, go := MarkRecorded(job);
    }

    /** The record exists: mark it, unless the job was cancelled meanwhile. */
    method MarkRecorded(job: Job) returns (e: Exit, go: bool)
      requires Relaying(job) && SeenOf(log, job.about.id).everSent && job.about.id in relayRecorded
      modifies this, store
      ensures old(log) <= log
      ensures e == Returned && Firing(job.about.id) && waiting == old(waiting) && clock >= old(clock)
      ensures !go ==> Quiet(job.about.id)
      ensures go ==> Relaying(job.(relayRecorded := true))
                     && SeenOf(log, job.about.id).everSent && SeenOf(log, job.about.id).everRecorded
      ensures e == Returned && !go ==> R.HoldsOff(log, |old(log)|, job.about.id) || R.Stopped(log, job.about.id)
    {
      hide SeenOf, TurnOf, T.Fit, T.StandsOf, Safe, S.Fine, S.Linked, Allowed;
      var id := job.about.id;
      assert JobInv(id);
      S.MarksAreTrue(SliceOf(id), id, clock);
      S.MarkRecordedKeeps(SliceOf(id), id, clock);
      var marked := store.MarkRelayRecorded(id);
      KeepInv(id);
      if marked.Failure? {
        Fault(id);
        Defer(id);
        return Returned, false;
      }
      if !marked.value {
        ForgetStopped(id);
        return Returned, false;
      }
      return Returned, true;
    }

    /** One attempt to append the relay record to the recipient's history. */
    method RecordRelay(job: Job) returns (e: Exit, recorded: bool)
      requires Relaying(job) && SeenOf(log, job.about.id).everSent && !SeenOf(log, job.about.id).recorded
      modifies this, store
      ensures old(log) <= log
      ensures e != Died ==> waiting == old(waiting) && clock >= old(clock)
      ensures e != Raised
      ensures e == Returned ==> Relaying(job) && SeenOf(log, job.about.id).everSent
      ensures e == Returned && recorded ==> job.about.id in relayRecorded
      ensures e == Returned && !recorded ==> Faulty(job.about.id)
      ensures e == Died ==> Inv() && busy == None && waiting == map[]
    {
      hide SeenOf, TurnOf, T.Fit, T.StandsOf, Safe, S.Fine, S.Linked, Allowed;
      OwnersAct(job.about.id);
      recorded := WriteRecord(job);
      var dies: bool := *;
      if dies {
        Restart();
        return Died, recorded;
      }
      return Returned, recorded;
    }

    /** The recipient's history takes the record, which is remembered at once, or it does not. */
    method WriteRecord(job: Job) returns (recorded: bool)
      requires Relaying(job) && SeenOf(log, job.about.id).everSent && !SeenOf(log, job.about.id).recorded
      modifies this`log, this`relayRecorded
      ensures old(log) <= log && Relaying(job) && SeenOf(log, job.about.id).everSent
      ensures if recorded then job.about.id in relayRecorded else Faulty(job.about.id)
    {
      hide SeenOf, TurnOf, T.Fit, T.StandsOf, Safe, S.Fine, S.Linked, Allowed, Note;
      recorded := *;
      if !recorded {
        Fault(job.about.id);
        return;
      }
      RememberRecord(job);
    }

    /** The record is in the log and in memory. */
    method RememberRecord(job: Job)
      requires Relaying(job) && SeenOf(log, job.about.id).everSent && !SeenOf(log, job.about.id).recorded
      modifies this`log, this`relayRecorded
      ensures old(log) <= log && Relaying(job) && SeenOf(log, job.about.id).everSent
      ensures job.about.id in relayRecorded
    {
      hide SeenOf, TurnOf, T.Fit, T.StandsOf, Safe, S.Fine, S.Linked, Allowed, Note;
      var id := job.about.id;
      assert JobInv(id);
      S.RecordKeeps(SliceOf(id), id, clock);
      Log(Event.Recorded(id, job.about.prompt));
      relayRecorded := relayRecorded + {id};
      assert SliceOf(id) == S.Recorded(old(SliceOf(id)), id, job.about.prompt);
      KeepInv(id);
    }

    /** A future relay: send, then record, then tell the sender. */
    method FireRelay(job: Job) returns (e: Exit)
      requires Relaying(job) && store.jobs[job.about.id].relaySent == job.relaySent
      requires SeenOf(log, job.about.id).sent ==> job.relaySent || job.about.id in relaySent
      modifies this, store
      ensures old(log) <= log && (e == Raised ==> Faulty(job.about.id))
      ensures e != Died ==> waiting == old(waiting) && clock >= old(clock)
      ensures e != Died ==> Firing(job.about.id)
      ensures e == Died ==> Inv() && busy == None && waiting == map[]
      ensures e == Returned ==> Quiet(job.about.id)
      ensures e == Returned ==>
                || R.HoldsOff(log, |old(log)|, job.about.id) || R.Stopped(log, job.about.id)
                || R.Reports(log, |old(log)|, job.about.id, R.RelayReport(job.about))
    {
      hide SeenOf, TurnOf, T.Fit, T.StandsOf, Safe, S.Fine, S.Linked, Allowed;
      var go: bool;
      e, go := SendOnce(job);
      if !go {
        return;
      }
      e, go := RecordOnce(job);
      if !go {
        return;
      }
      ghost var since := |log|;
      e := Queue(job, R.RelayReport(job.about).text, job.about.tainted, R.RelayReport(job.about).after);
      if e == Returned && !R.Stopped(log, job.about.id) {
        R.ReportsLater(log, log, |old(log)|, since, job.about.id, R.RelayReport(job.about));
      }
    }

    // ------------------------------------------------------------------ runs of the owner's own jobs

    /** Due when the tick began, and far enough from its last model run to run again. */
    ghost predicate Runnable(job: Job, now: Time)
      reads this, store
    {
      && Firing(job.about.id) && now <= clock
      && var p := SliceOf(job.about.id);
      && p.row.value.about == job.about && !job.about.relay && !p.seen.gone && p.seen.queued.None?
      && p.seen.firing == Attempt(job.nextRunAt <= now, job.about.Ended(now), true, None, p.seen.firing.faulted)
      && p.row.value.pending.text.None?
      && job.pending.text.None? && job.Due(now)
      && S.Rested(job, p.seen, p.memory)
      && (p.memory.retryAt.Some? ==> p.memory.retryAt.value <= now)
    }

    /** A report-only model turn, or the exception it ends in. Its start and its end are in the log. */
    method RunJob(job: Job, ghost now: Time) returns (e: Exit, outcome: Outcome)
      requires Runnable(job, now) && job.nextRunAt <= now && !job.about.verbatim
      modifies this, store
      ensures old(log) <= log
      ensures e != Died ==> waiting == old(waiting) && clock >= old(clock)
      ensures e != Died ==> Firing(job.about.id) && store.jobs[job.about.id].about == job.about
                            && store.jobs[job.about.id].pending.text.None? && !job.about.relay
      ensures e != Died ==>
                && |log| > |old(log)| + 1 && log[|old(log)|] == Event.RunStarted(job.about.id, old(clock))
                && log[|log|-1] == Event.RunEnded(job.about.id, clock, if e == Raised then None else Some(outcome))
      ensures e != Died ==>
                && !SeenOf(log, job.about.id).gone && SeenOf(log, job.about.id).about == Some(job.about)
                && var f := SeenOf(log, job.about.id).firing;
                   && f.due && f.ended == job.about.Ended(now)
                   && f.result == Some(if e == Raised then None else Some(outcome))
      ensures e == Died ==> Inv() && busy == None && waiting == map[]
    {
      hide SeenOf, TurnOf, T.Fit, T.StandsOf, Safe, S.Fine, S.Linked, Allowed, Note, S.OwnerMoved, Runnable;
      var id := job.about.id;
      StartRun(job, now);
      ghost var started := log;
      label start:
      var alive := Await(id);
      var failed: bool;
      failed, outcome := *, *;
      if !alive {
        return Died, outcome;
      }
      SameJob(old@start(SliceOf(id)), SliceOf(id), old@start(clock));
      EndRun(id, if failed then None else Some(outcome));
      assert log[|old(log)|] == started[|old(log)|];
      return if failed then Raised else Returned, outcome;
    }

    lemma SameJob(a: Slice, b: Slice, since: Time)
      requires S.OwnerMoved(a, b, since) && a.row.Some?
      ensures b.row.Some? && b.row.value.about == a.row.value.about && b.row.value.pending == a.row.value.pending
      ensures b.seen.gone == a.seen.gone && b.seen.queued == a.seen.queued && b.seen.firing == a.seen.firing
      ensures b.seen.about == a.seen.about
    {
    }

    ghost method StartRun(job: Job, now: Time)
      requires Runnable(job, now) && job.nextRunAt <= now && !job.about.verbatim
      modifies this`log
      ensures Firing(job.about.id) && store.jobs[job.about.id].about == job.about
      ensures store.jobs[job.about.id].pending.text.None? && !job.about.relay
      ensures log == old(log) + [Event.RunStarted(job.about.id, clock)]
      ensures SeenOf(log, job.about.id) == SeenOf(old(log), job.about.id) && MayRun(SeenOf(log, job.about.id))
      ensures var s := SeenOf(log, job.about.id);
              s.about == Some(job.about) && s.firing.due && s.firing.ended == job.about.Ended(now)
    {
      hide SeenOf, TurnOf, T.Fit, T.StandsOf, Safe, S.Fine, S.Linked, Allowed, Note;
      var id := job.about.id;
      assert JobInv(id);
      S.SeenIsItsRow(SliceOf(id), id, clock);
      S.RunStartKeeps(SliceOf(id), id, clock, clock, job);
      Log(Event.RunStarted(id, clock));
      KeepInv(id);
    }

    ghost method EndRun(id: string, result: Option<Outcome>)
      requires Firing(id) && MayRun(SeenOf(log, id))
      modifies this`log
      ensures Firing(id) && log == old(log) + [Event.RunEnded(id, clock, result)]
      ensures var was := SeenOf(old(log), id);
              SeenOf(log, id) == was.(ranAt := Some(clock), firing := was.firing.(result := Some(result)))
    {
      hide SeenOf, TurnOf, T.Fit, T.StandsOf, Safe, S.Fine, S.Linked, Allowed, Note;
      assert JobInv(id);
      S.RunEndKeeps(SliceOf(id), id, clock, result);
      Log(Event.RunEnded(id, clock, result));
      KeepInv(id);
    }

    /** Report a schedule, a reminder or a watch, once this run has looked. */
    method FireOwn(job: Job, now: Time) returns (e: Exit)
      requires Runnable(job, now) && Quiet(job.about.id)
      modifies this, store
      ensures old(log) <= log && (e == Raised ==> Faulty(job.about.id))
      ensures e != Died ==> waiting == old(waiting) && clock >= old(clock)
      ensures e != Died ==> Firing(job.about.id)
      ensures e == Died ==> Inv() && busy == None && waiting == map[]
      ensures e == Returned ==> Quiet(job.about.id)
      ensures e == Returned ==> R.OutOfBudget(log, |old(log)|, job.about.id) || R.Ran(log, |old(log)|, job, now)
    {
      hide SeenOf, TurnOf, T.Fit, T.StandsOf, Safe, S.Fine, S.Linked, S.Quiet, Allowed, R.Ran;
      var about := job.about;
      OnceIsScheduled(about.id);
      var expired, due := about.Ended(now), job.nextRunAt <= now;
      var after := if expired || about.once then Cancel else Advance;
      if about.kind.Schedule? || expired {
        var budget: bool := *;
        if !budget {
          NoteLimit(about.id);
          return Returned;
        }
      }
      if expired && !due {
        e := Queue(job, R.FormatExpireMessage(about.name), about.tainted, Cancel);
        RanByText(|old(log)|, job, now, e);
      } else if about.verbatim {
        e := Queue(job, about.prompt, about.tainted, after);
        RanByText(|old(log)|, job, now, e);
      } else {
        e := FireModel(job, now, expired);
      }
    }

    lemma OnceIsScheduled(id: string)
      requires Firing(id)
      ensures store.jobs[id].about.once ==> store.jobs[id].about.kind.Schedule?
    {
      assert JobInv(id);
      S.OutboxIsWhole(SliceOf(id), id, clock);
    }

    /** A run without a model: the watch that ended, or the reminder. */
    lemma RanByText(since: nat, job: Job, now: Time, e: Exit)
      requires e == Returned ==>
                 || R.Stopped(log, job.about.id)
                 || (if job.about.Ended(now) && job.nextRunAt > now then
                       R.Reports(log, since, job.about.id,
                                 Report(R.FormatExpireMessage(job.about.name), job.about.tainted, After.Cancel))
                     else
                       && job.about.verbatim
                       && R.Reports(log, since, job.about.id,
                                    Report(job.about.prompt, job.about.tainted,
                                           if job.about.Ended(now) || job.about.once then After.Cancel
                                           else After.Advance)))
      ensures e == Returned ==> R.Ran(log, since, job, now)
    {
    }

    ghost method NoteLimit(id: string)
      requires Firing(id) && Quiet(id) && !store.jobs[id].about.relay
      requires SeenOf(log, id).firing.ended || (SeenOf(log, id).firing.due && store.jobs[id].about.kind.Schedule?)
      modifies this`log
      ensures old(log) <= log && Firing(id) && Quiet(id) && R.OutOfBudget(log, |old(log)|, id)
    {
      hide SeenOf, TurnOf, T.Fit, T.StandsOf, Safe, S.Fine, S.Linked, S.Quiet, Allowed, Note;
      assert JobInv(id);
      S.LimitKeeps(SliceOf(id), id, clock);
      Log(Event.Limited(id));
      assert log[|old(log)|] == Event.Limited(id);
      assert SliceOf(id) == old(SliceOf(id));
      KeepInv(id);
    }

    /** A run that asks the model. */
    method FireModel(job: Job, now: Time, expired: bool) returns (e: Exit)
      requires Runnable(job, now) && job.nextRunAt <= now && !job.about.verbatim && expired == job.about.Ended(now)
      requires job.about.once ==> job.about.kind.Schedule?
      modifies this, store
      ensures old(log) <= log && (e == Raised ==> Faulty(job.about.id))
      ensures e != Died ==> waiting == old(waiting) && clock >= old(clock)
      ensures e != Died ==> Firing(job.about.id)
      ensures e == Died ==> Inv() && busy == None && waiting == map[]
      ensures e == Returned ==> Quiet(job.about.id)
      ensures e == Returned ==> R.Ran(log, |old(log)|, job, now)
    {
      hide SeenOf, TurnOf, T.Fit, T.StandsOf, Safe, S.Fine, S.Linked, S.Quiet, Allowed, Runnable, R.Ran, Says,
        R.FormatFailMessage, R.FormatExpireMessage, R.FormatJobMessage;
      var about := job.about;
      var outcome: Outcome;
      e, outcome := RunJob(job, now);
      if e == Died {
        return;
      }
      ghost var ended := log;
      ghost var result := if e == Raised then None else Some(outcome);
      R.ModelReportSays(SeenOf(log, about.id), about, result);
      var after := if expired || about.once then Cancel else Advance;
      if e == Raised || (!outcome.found && !outcome.checked) {
        e := Queue(job, R.FormatFailMessage(about.name), about.tainted, after);
      } else if about.kind.Schedule? || outcome.found {
        var body := if outcome.found then Strip(outcome.text) else "Nothing to report.";
        e := Queue(job, R.FormatJobMessage(about.name, body), outcome.untrusted || about.tainted, after);
      } else if expired {
        e := Queue(job, R.FormatExpireMessage(about.name), about.tainted, Cancel);
      } else {
        e := StayQuiet(about.id);
      }
      if e == Returned {
        RanByModel(ended, |old(log)|, job, now, result);
      }
    }

    /** What followed the model run is what its result leads to. */
    lemma RanByModel(ended: seq<Event>, since: nat, job: Job, now: Time, result: Option<Outcome>)
      requires since < |ended| && ended <= log && job.nextRunAt <= now && !job.about.verbatim
      requires ended[|ended|-1].RunEnded? && ended[|ended|-1].id == job.about.id && ended[|ended|-1].result == result
      requires var report := R.ModelReport(job.about, job.about.Ended(now), result);
               R.Stopped(log, job.about.id) || if report.Some? then R.Reports(log, |ended|, job.about.id, report.value)
                                               else R.Advances(log, |ended|, job.about.id)
      ensures R.Ran(log, since, job, now)
    {
      hide R.ModelReport;
      var k, report := |ended| - 1, R.ModelReport(job.about, job.about.Ended(now), result);
      assert log[k] == ended[k];
      if !R.Stopped(log, job.about.id) {
        if report.Some? {
          R.ReportsLater(log, log, k, |ended|, job.about.id, report.value);
        } else {
          R.AdvancesLater(log, log, k, |ended|, job.about.id);
        }
        assert R.LedTo(log, k, job, now);
      }
    }

    /** A watch that found nothing says nothing. */
    method StayQuiet(id: string) returns (e: Exit)
      requires Firing(id) && !store.jobs[id].about.relay && store.jobs[id].pending.text.None?
      requires MayStayQuiet(SeenOf(log, id))
      modifies store, this`log, this`relaySent, this`relayRecorded, this`notified
      ensures old(log) <= log
      ensures e != Died && Firing(id) && (e == Raised ==> Faulty(id))
      ensures e == Returned ==> Quiet(id)
      ensures e == Returned ==> R.Advances(log, |old(log)|, id) || R.Stopped(log, id)
    {
      hide SeenOf, TurnOf, T.Fit, T.StandsOf, Safe, S.Fine, S.Linked;
      assert JobInv(id);
      S.NothingRemembered(SliceOf(id), id, clock);
      var advanced := AdvanceRow(id, false);
      if advanced.Failure? {
        Fault(id);
        return Raised;
      }
      if !advanced.value {
        assert JobInv(id);
        S.QuietWhenSettled(SliceOf(id), id, clock);
      }
      return Returned;
    }

    // ------------------------------------------------------------------ ticks

    /** Carry one due job as far as it will go now. `job` is the row as the tick read it. */
    method Fire(job: Job, now: Time) returns (e: Exit)
      requires Firing(job.about.id) && now <= clock && job.Due(now) && Quiet(job.about.id)
      requires S.Waiting(job, now, store.jobs[job.about.id], SeenOf(log, job.about.id), SliceOf(job.about.id).memory)
      requires job.about.id in retryAt ==> retryAt[job.about.id] <= now
      modifies this, store
      ensures old(log) <= log && (e == Raised ==> Faulty(job.about.id))
      ensures e != Died ==> waiting == old(waiting) && clock >= old(clock)
      ensures e != Died ==> Firing(job.about.id)
      ensures e == Died ==> Inv() && busy == None && waiting == map[]
      ensures e == Returned ==> Quiet(job.about.id) && R.Fired(log, |old(log)|, job, now)
    {
      hide SeenOf, TurnOf, T.Fit, T.StandsOf, Safe, S.Fine, S.Linked, S.Quiet, Allowed, R.Ran;
      assert JobInv(job.about.id);
      S.OutboxIsWhole(SliceOf(job.about.id), job.about.id, clock);
      S.SeenIsItsRow(SliceOf(job.about.id), job.about.id, clock);
      if job.pending.text.Some? && job.pending.after.Some? {
        e := Deliver(job);
      } else if job.about.relay {
        e := FireRelay(job);
      } else {
        e := FireOwn(job, now);
      }
    }

    /** Fire one job. An exception holds that job off and leaves the rest of the tick alone. */
    method FireGuarded(job: Job, now: Time, ghost agents: set<string>) returns (e: Exit)
      requires job.about.agent in agents
      requires Inv() && busy == None && now <= clock && job.Due(now)
      requires job.about.id in waiting && waiting[job.about.id].job == job && waiting[job.about.id].at == now
      requires !T.HoldsJob(turns, job.about.id) && (job.about.id in retryAt ==> retryAt[job.about.id] <= now)
      modifies this, store
      ensures old(log) <= log
      ensures Inv() && busy == None
      ensures e != Died ==> waiting == old(waiting) - {job.about.id} && clock >= old(clock)
      ensures e == Died ==> waiting == map[]
      ensures e != Died ==> R.Fired(log, |old(log)|, job, now)
    {
      hide SeenOf, TurnOf, T.Fit, T.StandsOf, Safe, S.Fine, S.Linked, S.Quiet, Allowed, R.Fired;
      var id := job.about.id;
      Begin(job);
      e := Fire(job, now);
      if e == Died {
        return;
      }
      if e == Raised {
        ghost var raisedAt := |log|;
        Defer(id);
        FiredByHolding(|old(log)|, raisedAt, job, now);
      }
      Close(id);
    }

    lemma FiredByHolding(since: nat, later: nat, job: Job, now: Time)
      requires since <= later && R.HoldsOff(log, later, job.about.id)
      ensures R.Fired(log, since, job, now)
    {
      hide R.Ran, R.RelayReport;
    }

    /** Nothing is being fired any more. */
    ghost method Close(id: string)
      requires Firing(id) && Quiet(id)
      modifies this`busy
      ensures Inv() && busy == None
    {
      hide SeenOf, TurnOf, T.Fit, T.StandsOf, Safe, S.Fine, S.Linked, S.Quiet, Allowed;
      S.QuietIsFine(SliceOf(id), id, clock);
      busy := None;
      assert SliceOf(id) == old(SliceOf(id)).(busy := false);
      KeepInv(id);
    }

    /** From here on the snapshot is what is being fired, not what waits. */
    ghost method Begin(job: Job)
      requires Inv() && busy == None
      requires job.about.id in waiting && waiting[job.about.id].job == job && !T.HoldsJob(turns, job.about.id)
      requires job.about.id in retryAt ==> retryAt[job.about.id] <= waiting[job.about.id].at
      modifies this`busy, this`waiting
      ensures Firing(job.about.id) && Quiet(job.about.id) && waiting == old(waiting) - {job.about.id}
      ensures S.Waiting(job, old(waiting)[job.about.id].at, store.jobs[job.about.id], SeenOf(log, job.about.id),
                        SliceOf(job.about.id).memory)
    {
      hide SeenOf, TurnOf, T.Fit, T.StandsOf, Safe, S.Fine, S.Linked, S.Quiet, Allowed;
      var id := job.about.id;
      assert JobInv(id);
      T.HeldMeansStanding(turns, id);
      S.BeginKeeps(SliceOf(id), id, clock);
      waiting := waiting - {id};
      busy := Some(id);
      KeepInv(id);
    }

    /** A job that is not fired in this tick after all. */
    ghost method Skip(id: string)
      requires Inv() && id in waiting
      modifies this`waiting
      ensures Inv() && waiting == old(waiting) - {id}
    {
      hide SeenOf, TurnOf, T.Fit, T.StandsOf, Safe, S.Fine, S.Linked, S.Quiet, Allowed;
      assert JobInv(id);
      S.SkipKeeps(SliceOf(id), id, clock);
      waiting := waiting - {id};
      KeepInv(id);
    }

    /** No open turn holds this job, and it is not held off. */
    predicate Ready(id: string, now: Time)
      reads this`turns, this`retryAt
    {
      !T.HoldsJob(turns, id) && (id in retryAt ==> retryAt[id] <= now)
    }

    /** The poll is in the log: from here on it is known which jobs were cancelled before it. */
    ghost method NotePoll()
      requires Inv() && busy == None && waiting == map[]
      modifies this`log
      ensures Inv() && log == old(log) + [Polled(clock)]
      ensures forall id :: id in store.jobs ==> S.PolledNow(SliceOf(id), clock)
    {
      hide SeenOf, TurnOf, T.Fit, T.StandsOf, Safe, S.Fine, S.Linked, Note, Allowed;
      T.FitKept(turns, nextTurn, log, Polled(clock));
      LogWide(Polled(clock));
      forall id ensures JobInv(id) && (id in store.jobs ==> S.PolledNow(SliceOf(id), clock)) {
        assert old(JobInv(id));
        S.PollKeeps(old(SliceOf(id)), id, clock);
        assert SliceOf(id) == old(SliceOf(id)).(seen := Note(old(SeenOf(log, id)), Polled(clock), id));
      }
    }

    /** The rows the poll returned are, for now, what the table holds. */
    ghost method TakeSnapshots(due: seq<Job>)
      requires Inv() && busy == None && waiting == map[]
      requires forall id :: id in store.jobs ==> S.PolledNow(SliceOf(id), clock)
      requires forall k :: 0 <= k < |due| ==>
                 due[k].about.id in store.jobs && store.jobs[due[k].about.id] == due[k] && due[k].Due(clock)
      modifies this`waiting
      ensures Inv()
      ensures waiting == map id | id in store.jobs && store.jobs[id] in due :: SnapshotOf(id)
    {
      hide SeenOf, TurnOf, T.Fit, T.StandsOf, Safe, S.Fine, S.Linked, S.Quiet, Allowed, SnapshotOf, S.PolledNow,
        S.Ready;
      waiting := map id | id in store.jobs && store.jobs[id] in due :: SnapshotOf(id);
      forall id ensures JobInv(id) {
        assert old(JobInv(id));
        if id in waiting {
          SnapshotIs(id);
          S.ReadKeeps(old(SliceOf(id)), id, SnapshotOf(id).ready, clock);
          assert SliceOf(id) == old(SliceOf(id)).(snap := Some(SnapshotOf(id)));
        }
      }
    }

    /** The row as it is, and whether its job could be fired here and now. */
    function SnapshotOf(id: string): S.Snapshot
      requires id in store.jobs
      reads this`turns, this`retryAt, this`clock, store
    {
      S.Snapshot(store.jobs[id], clock, Ready(id, clock))
    }

    lemma SnapshotIs(id: string)
      requires id in store.jobs
      ensures SnapshotOf(id).job == store.jobs[id] && SnapshotOf(id).at == clock
      ensures SnapshotOf(id).ready <==> Ready(id, clock)
      ensures SnapshotOf(id).ready ==> S.Ready(SliceOf(id).memory, clock)
    {
      T.HeldMeansStanding(turns, id);
    }

    /** What waits and was ready when the tick began is ready still. */
    lemma StillReady(id: string, now: Time)
      requires Inv() && id in waiting && waiting[id].ready && waiting[id].at == now
      ensures Ready(id, now)
    {
      hide SeenOf, TurnOf, T.Fit, Safe, S.Linked, S.Waiting;
      assert JobInv(id);
      T.HeldMeansStanding(turns, id);
    }

    /** The tick is over: what it read no longer matters. */
    ghost method DropSnapshots()
      requires Inv()
      modifies this`waiting
      ensures Inv() && waiting == map[]
    {
      hide SeenOf, TurnOf, T.Fit, T.StandsOf, Safe, S.Fine;
      waiting := map[];
      forall id ensures JobInv(id) {
        assert old(JobInv(id));
        S.SkipKeeps(old(SliceOf(id)), id, clock);
        assert SliceOf(id) == old(SliceOf(id)).(snap := None);
      }
    }

    /** Poll once, and log it. Every due job of a known agent that is neither held nor held off is fired. */
    method Tick(agents: set<string>) returns (e: Exit)
      requires Inv() && busy == None && waiting == map[]
      modifies this, store
      ensures old(log) <= log
      ensures Inv() && busy == None && waiting == map[]
      ensures e == Returned ==>
                forall id :: id in old(store.jobs) && old(Ready(id, clock))
                             && old(store.jobs)[id].about.agent in agents ==>
                  var row := old(store.jobs)[id];
                  (if row.cancelledAt.Some? then row.pending.text.Some? && row.pending.delivered
                   else row.pending.text.Some? || row.nextRunAt <= old(clock) || row.about.Ended(old(clock))) ==>
                    R.Fired(log, |old(log)|, row, old(clock))
      ensures e == Returned ==>
                forall id :: id in old(store.jobs) && old(Ready(id, clock)) && old(store.jobs)[id].about.agent in agents
                             && SeenOf(old(log), id).queued.Some? && !SeenOf(old(log), id).cancelled ==>
                  R.Ends(log, |old(log)|, id) || R.HoldsOff(log, |old(log)|, id)
      ensures e == Returned ==> |log| > |old(log)| && log[|old(log)|] == Polled(old(clock))
    {
      hide SeenOf, TurnOf, T.Fit, T.StandsOf, Safe, S.Fine, S.Linked, S.Quiet, S.PolledNow, S.Ready, Allowed, R.Fired,
        R.Ends, R.HoldsOff;
      var now := clock;
      var polled := store.DueJobs(now);
      if polled.Failure? {
        return Raised;
      }
      QueuedIsPending();
      RowsAreKeyed();
      e := FirePolled(polled.value, agents);
    }

    /** The rows of this poll, fired one after the other. */
    method FirePolled(rows: seq<Job>, agents: set<string>) returns (e: Exit)
      requires Inv() && busy == None && waiting == map[]
      requires forall k :: 0 <= k < |rows| ==>
                 && rows[k].about.id in store.jobs && store.jobs[rows[k].about.id] == rows[k] && rows[k].Due(clock)
      requires forall k, m :: 0 <= k < m < |rows| ==> rows[k].about.id != rows[m].about.id
      requires forall id :: id in store.jobs ==> store.jobs[id].about.id == id
      modifies this, store
      ensures old(log) <= log && Inv() && busy == None && waiting == map[]
      ensures |log| > |old(log)| && log[|old(log)|] == Polled(old(clock))
      ensures e == Returned ==>
                forall k :: 0 <= k < |rows| && rows[k].about.agent in agents && old(Ready(rows[k].about.id, clock)) ==>
                  && R.Fired(log, |old(log)|, rows[k], old(clock))
                  && (rows[k].pending.text.Some? ==>
                        R.Ends(log, |old(log)|, rows[k].about.id) || R.HoldsOff(log, |old(log)|, rows[k].about.id))
    {
      hide SeenOf, TurnOf, T.Fit, T.StandsOf, Safe, S.Fine, S.Linked, S.Quiet, S.PolledNow, S.Ready, Allowed, R.Fired,
        R.Ends, R.HoldsOff;
      var now := clock;
      NotePoll();
      TakeSnapshots(rows);
      ghost var polledAt := log;
      e := FireAll(rows, now, agents);
      DropSnapshots();
      assert log[|old(log)|] == polledAt[|old(log)|];
      R.FiredSince(log, |old(log)|, |polledAt|, rows, now);
    }

    /** What the log has as queued for a job that goes on is in its row. */
    lemma QueuedIsPending()
      requires Inv()
      ensures forall id :: id in store.jobs && SeenOf(log, id).queued.Some? && !SeenOf(log, id).cancelled ==>
                store.jobs[id].Active() && store.jobs[id].pending.text.Some?
    {
      forall id | id in store.jobs && SeenOf(log, id).queued.Some? && !SeenOf(log, id).cancelled
        ensures store.jobs[id].Active() && store.jobs[id].pending.text.Some?
      {
        assert JobInv(id);
        S.SeenIsItsRow(SliceOf(id), id, clock);
      }
    }

    lemma RowsAreKeyed()
      requires Inv()
      ensures forall id :: id in store.jobs ==> store.jobs[id].about.id == id
    {
      forall id | id in store.jobs ensures store.jobs[id].about.id == id {
        assert JobInv(id);
        S.OutboxIsWhole(SliceOf(id), id, clock);
      }
    }

    /**
     Fire each due row in turn. An agent the household does not know, a held reminder and a job held off are skipped;
     what was ready when the tick began is fired, whatever the jobs before it did.
     */
    method FireAll(due: seq<Job>, now: Time, agents: set<string>) returns (e: Exit)
      requires Inv() && busy == None && now <= clock
      requires forall k :: 0 <= k < |due| ==> due[k].Due(now)
      requires forall k, m :: 0 <= k < m < |due| ==> due[k].about.id != due[m].about.id
      requires forall k :: 0 <= k < |due| ==>
                 && due[k].about.id in waiting && waiting[due[k].about.id].job == due[k]
                 && waiting[due[k].about.id].at == now
      modifies this, store
      ensures old(log) <= log
      ensures Inv() && busy == None
      ensures e == Returned ==>
                forall k :: 0 <= k < |due| && due[k].about.agent in agents
                            && old(waiting)[due[k].about.id].ready ==>
                  R.Fired(log, |old(log)|, due[k], now)
    {
      hide SeenOf, TurnOf, T.Fit, T.StandsOf, Safe, S.Fine, S.Linked, S.Quiet, Allowed, R.Fired;
      ghost var asRead := waiting;
      var i := 0;
      while i < |due|
        invariant 0 <= i <= |due|
        invariant Inv() && busy == None && now <= clock && old(log) <= log
        invariant forall k :: i <= k < |due| ==>
                    && due[k].about.id in waiting && due[k].about.id in asRead
                    && waiting[due[k].about.id] == asRead[due[k].about.id]
                    && asRead[due[k].about.id].job == due[k] && asRead[due[k].about.id].at == now
        invariant forall k :: 0 <= k < i && due[k].about.agent in agents
                              && asRead[due[k].about.id].ready ==>
                    R.Fired(log, |old(log)|, due[k], now)
      {
        var job := due[i];
        var id := job.about.id;
        if asRead[id].ready {
          StillReady(id, now);
        }
        ghost var before := log;
        if (id in retryAt && now < retryAt[id]) || T.HoldsJob(turns, id) || job.about.agent !in agents {
          Skip(id);
        } else {
          e := FireGuarded(job, now, agents);
          if e == Died {
            return;
          }
          R.FiredStays(log, log, |old(log)|, |before|, job, now);
        }
        forall k | 0 <= k < i && due[k].about.agent in agents && asRead[due[k].about.id].ready
          ensures R.Fired(log, |old(log)|, due[k], now)
        {
          R.FiredStays(before, log, |old(log)|, |old(log)|, due[k], now);
        }
        i := i + 1;
      }
      return Returned;
    }

    /** Polls and pauses for as long as the service lives, whatever happens in between. */
    method Run(agents: set<string>)
      requires Inv() && busy == None && waiting == map[]
      modifies this, store
      ensures old(log) <= log
      ensures Inv() && busy == None && waiting == map[]
    {
      var ticks: nat := *;
      while ticks > 0
        invariant Inv() && busy == None && waiting == map[] && old(log) <= log
      {
        ticks := ticks - 1;
        var _ := Tick(agents);
        Rest();
      }
    }

    /** The pause between two polls. */
    method Rest()
      requires Inv() && busy == None && waiting == map[]
      modifies this, store
      ensures old(log) <= log
      ensures Inv() && busy == None && waiting == map[]
    {
      OwnersAct("");
      var dies: bool := *;
      if dies {
        Restart();
      }
    }
  }

  /** Every log a service that starts on an empty table can produce is safe. */
  method Service(agents: set<string>) returns (ghost log: seq<Event>, runner: JobRunner)
    ensures Safe(log) && log == runner.log
  {
    runner := new JobRunner();
    runner.Run(agents);
    log := runner.log;
  }
}
