/** One job's share of the runner's state, and what each step does to it. */
module JobSlice {
  import opened Wrappers
  import opened JobRows
  import opened RunLog
  import T = JobTurns

  /** What the process remembers about one job, and where it stands with the open turns that saved it. */
  datatype Memory = Memory(sent: bool, recorded: bool, notified: bool, stands: map<nat, T.Stand>,
                           retryAt: Option<Time>, retryDelay: Option<real>)

  const BLANK := Memory(false, false, false, map[], None, None)

  /** A row as a tick read it at that time, and whether the job could be fired there and then. */
  datatype Snapshot = Snapshot(job: Job, at: Time, ready: bool)

  /** No open turn holds it, and it is not held off. */
  predicate Ready(m: Memory, now: Time) {
    m.stands == map[] && NotHeldOff(m, now)
  }

  predicate NotHeldOff(m: Memory, now: Time) { m.retryAt.Some? ==> m.retryAt.value <= now }

  /** `snap` is the row as the current tick read it, until that row is fired; `busy` while it is being fired. */
  datatype Slice = Slice(row: Option<Job>, seen: Seen, memory: Memory, snap: Option<Snapshot>, busy: bool)

  predicate Rested(r: Job, s: Seen, m: Memory) {
    s.ranAt.Some? ==>
      || r.nextRunAt >= s.ranAt.value + 60.0
      || (m.retryAt.Some? && m.retryAt.value >= s.ranAt.value + FIRST_RETRY_SECONDS)
  }

  /** No two model runs of one job may come closer than the first retry delay. */
  predicate Timed(r: Job, s: Seen, m: Memory) {
    r.pending.text.Some? || !r.Active() || Rested(r, s, m)
  }

  /** Whatever was sent or recorded in this process is remembered, in the row or in memory. */
  predicate Remembered(r: Job, s: Seen, m: Memory) {
    && (s.sent ==> r.relaySent || m.sent)
    && (s.recorded ==> r.relayRecorded || m.recorded)
  }

  function ReportOf(o: Outbox): Report
    requires o.text.Some?
  {
    Report(o.text.value, o.untrusted, if o.after.Some? then o.after.value else After.Advance)
  }

  /** The log's view of who holds a reminder is that of the open turns. */
  predicate Standing(cancelled: bool, hold: Hold, stands: map<nat, T.Stand>) {
    && (forall t :: t in stands && stands[t].phase.Asking? ==> hold == Held(t) && !stands[t].left)
    && (forall t :: t in stands && stands[t].left ==> stands[t].phase.Rolling? && hold == Failing(t))
    && (hold.Held? ==> hold.turn in stands && stands[hold.turn].phase.Asking?)
    && (hold.Failing? ==> cancelled || (hold.turn in stands && stands[hold.turn].left))
  }

  /** The row, the memory and the log agree about one job. */
  predicate Linked(r: Job, s: Seen, m: Memory) {
    && s.about == Some(r.about) && s.every == r.everySeconds && s.next == r.nextRunAt
    && (r.about.once || r.about.relay ==> r.about.kind.Schedule?)
    && (s.firing.ended ==> r.about.kind.Watch?) && s.until == m.retryAt
    && r.everySeconds >= MIN_EVERY_SECONDS
    && s.cancelled == !r.Active()
    && r.pending.text.Some? == r.pending.after.Some?
    && (r.pending.delivered ==> r.pending.text.Some?)
    && (r.relaySent || m.sent ==> r.about.relay && s.everSent)
    && (r.relayRecorded || m.recorded ==> r.about.relay && s.everRecorded)
    && (r.pending.text.Some? ==> s.queued == Some(ReportOf(r.pending)))
    && (r.pending.text.Some? && r.about.once ==> r.pending.after == Some(After.Cancel))
    && (r.pending.text.None? && r.Active() ==> s.queued.None?)
    && (s.notified && r.pending.text.Some? ==> r.pending.delivered || m.notified)
    && (m.notified ==> r.pending.text.Some?)
    && (r.pending.delivered || m.notified ==> s.reached)
    && Standing(s.cancelled, s.hold, m.stands)
    && (m.stands != map[] ==> !r.about.relay && r.pending.text.None? && s.queued.None? && !s.told)
    && (r.about.relay ==> s.ranAt.None?)
    && s.delay == (if m.retryDelay.Some? then m.retryDelay.value else FIRST_RETRY_SECONDS)
    && FIRST_RETRY_SECONDS <= s.delay <= MAX_RETRY_SECONDS
  }

  /** Same row apart from the fields owners write. */
  predicate SameButOwner(a: Job, b: Job) {
    && b == a.(cancelledAt := b.cancelledAt, everySeconds := b.everySeconds, nextRunAt := b.nextRunAt)
    && (!a.Active() ==> !b.Active())
  }

  /** A row read at the start of a tick still describes its job, and the job may run if that row says so. */
  predicate Waiting(job: Job, at: Time, r: Job, s: Seen, m: Memory) {
    && SameButOwner(job, r)
    && (job.pending.text.None? && job.Active() ==> Remembered(r, s, m) && Rested(job, s, m) && s.queued.None?)
    && (job.Active() ==> !s.gone)
    && s.firing == Attempt(job.nextRunAt <= at, job.about.Ended(at), NotHeldOff(m, at), None, false)
  }

  /** Everything the runner's invariant says about one job. */
  predicate Fine(p: Slice, id: string, clock: Time) {
    if p.row.None? then
      p.seen == UNSEEN && p.memory == BLANK && p.snap.None? && !p.busy
    else
      && p.row.value.about.id == id
      && Linked(p.row.value, p.seen, p.memory)
      && (p.row.value.Active() ==> Remembered(p.row.value, p.seen, p.memory))
      && (p.seen.ranAt.Some? ==> p.seen.ranAt.value <= clock)
      && (!p.busy ==> Timed(p.row.value, p.seen, p.memory))
      && (p.snap.Some? ==>
            && Waiting(p.snap.value.job, p.snap.value.at, p.row.value, p.seen, p.memory)
            && (p.snap.value.ready ==> Ready(p.memory, p.snap.value.at)))
  }

  /** What owners may have done to one job since some time. */
  predicate OwnerMoved(a: Slice, b: Slice, since: Time) {
    a.row.Some? ==>
      && b.row.Some?
      && SameButOwner(a.row.value, b.row.value)
      && (!a.row.value.Active() ==> b.row == a.row)
      && (b.row.value.nextRunAt == a.row.value.nextRunAt || b.row.value.nextRunAt >= since + 60.0)
      && b.seen == a.seen.(cancelled := b.seen.cancelled, every := b.seen.every, next := b.seen.next,
                           hold := b.seen.hold)
      && b.memory == a.memory.(stands := b.memory.stands)
      && (a.memory.stands == map[] ==> b.memory.stands == map[])
      && b.snap == a.snap && b.busy == a.busy
  }

  lemma OwnerIdle(p: Slice, now: Time)
    ensures OwnerMoved(p, p, now)
  {
  }

  lemma OwnerMovedTwice(a: Slice, b: Slice, c: Slice, t: Time, u: Time)
    requires OwnerMoved(a, b, t) && OwnerMoved(b, c, u) && t <= u
    ensures OwnerMoved(a, c, t)
  {
  }

  lemma Later(p: Slice, id: string, now: Time, then_: Time)
    requires Fine(p, id, now) && now <= then_
    ensures Fine(p, id, then_)
  {
  }

  // ------------------------------------------------------------------ what owners do

  function CreationOf(job: Job, saver: Option<nat>): Event {
    Event.Created(job.about.id, job.about, job.everySeconds, job.nextRunAt, saver)
  }

  function Created(p: Slice, job: Job, saver: Option<nat>): Slice {
    p.(row := Some(job),
       seen := Note(p.seen, CreationOf(job, saver), job.about.id),
       memory := p.memory.(stands := if saver.Some? then map[saver.value := T.Stand(T.Asking, false)] else map[]))
  }

  /** A row as the tools insert it: no outbox, no delivery flag, not cancelled; a watch is never one-time or a relay. */
  predicate Newborn(job: Job) {
    && job.Active() && job.everySeconds >= MIN_EVERY_SECONDS
    && job.pending == EMPTY_OUTBOX && (job.about.once || job.about.relay ==> job.about.kind.Schedule?)
    && !job.relaySent && !job.relayRecorded
  }

  lemma CreateKeeps(p: Slice, job: Job, saver: Option<nat>, now: Time)
    requires Fine(p, job.about.id, now) && p.row.None? && Newborn(job) && (saver.Some? ==> !job.about.relay)
    ensures p.memory == BLANK
    ensures Allowed(p.seen, CreationOf(job, saver))
    ensures Fine(Created(p, job, saver), job.about.id, now) && OwnerMoved(p, Created(p, job, saver), now)
  {
  }

  function Cancelled(p: Slice, id: string, now: Time, over: bool): Slice
    requires p.row.Some?
  {
    p.(row := Some(p.row.value.(cancelledAt := Some(now))), seen := Note(p.seen, Event.Cancelled(id, over), id))
  }

  lemma CancelSeen(s: Seen, id: string, over: bool)
    ensures Note(s, Event.Cancelled(id, over), id) == s.(cancelled := true)
  {
  }

  /** Its last report went out and is in the history. */
  predicate IsOver(r: Job, s: Seen) { r.pending.after == Some(After.Cancel) && r.pending.delivered && s.kept }

  lemma CancelKeeps(p: Slice, id: string, now: Time, over: bool)
    requires Fine(p, id, now) && p.row.Some? && p.row.value.Active() && (over ==> IsOver(p.row.value, p.seen))
    ensures Allowed(p.seen, Event.Cancelled(id, over))
    ensures Fine(Cancelled(p, id, now, over), id, now) && OwnerMoved(p, Cancelled(p, id, now, over), now)
  {
    hide Note;
    CancelSeen(p.seen, id, over);
  }

  /** One step of a turn, as one job sees it. */
  function Turned(p: Slice, id: string, t: nat, step: TurnStep, stands: map<nat, T.Stand>): Slice {
    p.(seen := Note(p.seen, Event.Turned(t, step), id), memory := p.memory.(stands := stands))
  }

  lemma TurnedSeen(s: Seen, id: string, t: nat, step: TurnStep)
    ensures Note(s, Event.Turned(t, step), id) == s.(hold := NextHold(s.hold, Event.Turned(t, step), id))
  {
  }

  /** A turn stops asking: its reminders are to be cancelled, or are free. */
  lemma StandingTurns(cancelled: bool, hold: Hold, stands: map<nat, T.Stand>, t: nat, id: string)
    requires Standing(cancelled, hold, stands) && (t in stands ==> stands[t].phase.Asking?)
    ensures Standing(cancelled, NextHold(hold, Event.Turned(t, Failed), id), T.Failing(stands, t))
    ensures Standing(cancelled, NextHold(hold, Event.Turned(t, Answered), id), T.Replied(stands, t))
    ensures Standing(cancelled, NextHold(hold, Event.Turned(t, BrokenOff), id), stands - {t})
    ensures hold.Free? ==> forall step :: NextHold(hold, Event.Turned(t, step), id).Free?
    ensures stands == map[] ==> T.Failing(stands, t) == map[] && T.Replied(stands, t) == map[] && stands - {t} == map[]
  {
  }

  /** Only where a job stands with its turns has changed. */
  lemma Restanding(p: Slice, id: string, hold: Hold, stands: map<nat, T.Stand>, now: Time)
    requires Fine(p, id, now) && Standing(p.seen.cancelled, hold, stands)
    requires p.memory.stands == map[] ==> stands == map[]
    requires p.row.None? ==> hold.Free?
    ensures var q := p.(seen := p.seen.(hold := hold), memory := p.memory.(stands := stands));
            Fine(q, id, now) && OwnerMoved(p, q, now)
  {
    hide Standing;
  }

  lemma StandsFine(p: Slice, id: string, now: Time)
    requires Fine(p, id, now)
    ensures Standing(p.seen.cancelled, p.seen.hold, p.memory.stands)
    ensures p.row.None? ==> p.seen.hold.Free? && p.memory.stands == map[]
  {
  }

  predicate StandsIn(p: Slice, t: nat, phase: T.Phase) {
    t in p.memory.stands ==> p.memory.stands[t].phase == phase
  }

  lemma TurnBeginKeeps(p: Slice, id: string, t: nat, now: Time)
    requires Fine(p, id, now)
    ensures Note(p.seen, Event.Turned(t, Opened), id) == p.seen
  {
  }

  lemma TurnFailKeeps(p: Slice, id: string, t: nat, now: Time)
    requires Fine(p, id, now) && StandsIn(p, t, T.Asking)
    ensures var q := Turned(p, id, t, Failed, T.Failing(p.memory.stands, t)); Fine(q, id, now) && OwnerMoved(p, q, now)
  {
    hide Note, NextHold, Standing, Fine, OwnerMoved, T.Failing, T.Replied;
    StandsFine(p, id, now);
    TurnedSeen(p.seen, id, t, Failed);
    StandingTurns(p.seen.cancelled, p.seen.hold, p.memory.stands, t, id);
    Restanding(p, id, NextHold(p.seen.hold, Event.Turned(t, Failed), id), T.Failing(p.memory.stands, t), now);
  }

  lemma TurnReplyKeeps(p: Slice, id: string, t: nat, now: Time)
    requires Fine(p, id, now) && StandsIn(p, t, T.Asking)
    ensures var q := Turned(p, id, t, Answered, T.Replied(p.memory.stands, t));
            Fine(q, id, now) && OwnerMoved(p, q, now)
  {
    hide Note, NextHold, Standing, Fine, OwnerMoved, T.Failing, T.Replied;
    StandsFine(p, id, now);
    TurnedSeen(p.seen, id, t, Answered);
    StandingTurns(p.seen.cancelled, p.seen.hold, p.memory.stands, t, id);
    Restanding(p, id, NextHold(p.seen.hold, Event.Turned(t, Answered), id), T.Replied(p.memory.stands, t), now);
  }

  lemma TurnBreakKeeps(p: Slice, id: string, t: nat, now: Time)
    requires Fine(p, id, now) && StandsIn(p, t, T.Asking)
    ensures var q := Turned(p, id, t, BrokenOff, p.memory.stands - {t}); Fine(q, id, now) && OwnerMoved(p, q, now)
  {
    hide Note, NextHold, Standing, Fine, OwnerMoved, T.Failing, T.Replied;
    StandsFine(p, id, now);
    TurnedSeen(p.seen, id, t, BrokenOff);
    StandingTurns(p.seen.cancelled, p.seen.hold, p.memory.stands, t, id);
    Restanding(p, id, NextHold(p.seen.hold, Event.Turned(t, BrokenOff), id), p.memory.stands - {t}, now);
  }

  /** A turn lets go of a job: it has tried to cancel it, or its reply is out. */
  lemma TurnLeaveKeeps(p: Slice, id: string, t: nat, now: Time)
    requires Fine(p, id, now)
    requires t in p.memory.stands ==> !p.memory.stands[t].phase.Asking? && !p.memory.stands[t].left
    ensures var q := p.(memory := p.memory.(stands := p.memory.stands - {t})); Fine(q, id, now) && OwnerMoved(p, q, now)
  {
  }

  function Tried(p: Slice, t: nat): Slice {
    p.(memory := p.memory.(stands := p.memory.stands[t := T.Stand(T.Rolling, false)]))
  }

  /** One cancel of a rollback: it goes through, or finds the row cancelled already. */
  lemma TriedKeeps(p: Slice, id: string, t: nat, now: Time)
    requires Fine(p, id, now) && t in p.memory.stands && p.memory.stands[t].left
    ensures p.row.Some? && p.memory.stands[t].phase.Rolling?
    ensures p.row.value.Active() ==> Allowed(p.seen, Event.Cancelled(id, false))
    ensures var q := Tried(if p.row.value.Active() then Cancelled(p, id, now, false) else p, t);
            Fine(q, id, now) && OwnerMoved(p, q, now)
  {
    LeftIsAJob(p, id, t, now);
    hide Fine, OwnerMoved, Note, Tried, Allowed;
    var q := p;
    OwnerIdle(p, now);
    if p.row.value.Active() {
      CancelKeeps(p, id, now, false);
      q := Cancelled(p, id, now, false);
    }
    TriedCancelled(q, id, t, now);
    OwnerMovedTwice(p, q, Tried(q, t), now, now);
  }

  lemma LeftIsAJob(p: Slice, id: string, t: nat, now: Time)
    requires Fine(p, id, now) && t in p.memory.stands && p.memory.stands[t].left
    ensures p.row.Some? && p.memory.stands[t].phase.Rolling?
  {
  }

  lemma TriedCancelled(p: Slice, id: string, t: nat, now: Time)
    requires Fine(p, id, now) && p.row.Some? && !p.row.value.Active()
    requires t in p.memory.stands && p.memory.stands[t].left
    ensures Fine(Tried(p, t), id, now) && OwnerMoved(p, Tried(p, t), now)
  {
  }

  /** Or it fails, and the reminder is the runner's. */
  lemma TriedInVainKeeps(p: Slice, id: string, t: nat, now: Time)
    requires Fine(p, id, now) && t in p.memory.stands && p.memory.stands[t].left
    ensures Allowed(p.seen, Event.CancelFailed(id))
    ensures var q := Tried(p.(seen := Note(p.seen, Event.CancelFailed(id), id)), t);
            Fine(q, id, now) && OwnerMoved(p, q, now)
  {
    hide Note;
    CancelFailedSeen(p.seen, id);
  }

  lemma CancelFailedSeen(s: Seen, id: string)
    ensures Note(s, Event.CancelFailed(id), id) == s.(hold := Free)
  {
  }

  function Rescheduled(p: Slice, id: string, every: int, now: Time): Slice
    requires p.row.Some?
  {
    p.(row := Some(p.row.value.Rescheduled(every, now + every as real)),
       seen := Note(p.seen, Event.Rescheduled(id, every, now + every as real), id))
  }

  lemma RescheduleKeeps(p: Slice, id: string, every: int, now: Time)
    requires Fine(p, id, now) && p.row.Some? && p.row.value.Active() && every >= MIN_EVERY_SECONDS
    ensures Allowed(p.seen, Event.Rescheduled(id, every, now + every as real))
    ensures Fine(Rescheduled(p, id, every, now), id, now) && OwnerMoved(p, Rescheduled(p, id, every, now), now)
  {
    hide Note;
    RescheduleSeen(p.seen, id, every, now + every as real);
  }

  lemma RescheduleSeen(s: Seen, id: string, every: int, next: Time)
    ensures Note(s, Event.Rescheduled(id, every, next), id) == s.(every := every, next := next)
  {
  }

  // ------------------------------------------------------------------ what the process does

  function Restarted(p: Slice, id: string): Slice {
    Slice(p.row, Note(p.seen, Event.Restarted, id), BLANK, None, false)
  }

  lemma RestartKeeps(p: Slice, id: string, now: Time)
    requires Fine(p, id, now)
    ensures Fine(Restarted(p, id), id, now)
  {
  }

  /** A poll sees which jobs are cancelled. */
  lemma PollKeeps(p: Slice, id: string, now: Time)
    requires Fine(p, id, now) && p.snap.None? && !p.busy
    ensures var q := p.(seen := Note(p.seen, Event.Polled(now), id));
            Fine(q, id, now) && (p.row.Some? ==> PolledNow(q, now))
  {
  }

  /** What a poll found is in the log's view of the job. */
  predicate PolledNow(p: Slice, now: Time)
    requires p.row.Some?
  {
    && p.seen.gone == !p.row.value.Active()
    && p.seen.firing ==
         Attempt(p.row.value.nextRunAt <= now, p.row.value.about.Ended(now), NotHeldOff(p.memory, now), None, false)
  }

  /** A snapshot just read from the table is its row. */
  lemma ReadKeeps(p: Slice, id: string, ready: bool, now: Time)
    requires Fine(p, id, now) && p.row.Some? && !p.busy && p.row.value.Due(now)
    requires (ready ==> Ready(p.memory, now)) && PolledNow(p, now)
    ensures Fine(p.(snap := Some(Snapshot(p.row.value, now, ready))), id, now)
  {
  }

  function Deferred(p: Slice, id: string, now: Time): Slice {
    p.(seen := Note(p.seen, Event.Deferred(id, now, p.seen.delay), id),
       memory := p.memory.(retryAt := Some(now + p.seen.delay),
                           retryDelay := Some(Min(2.0 * p.seen.delay, MAX_RETRY_SECONDS))))
  }

  /** Something failed for it. */
  function Faulted(p: Slice, id: string): Slice { p.(seen := Note(p.seen, Event.Faulted(id), id)) }

  lemma FaultKeeps(p: Slice, id: string, now: Time)
    requires Fine(p, id, now) && p.row.Some? && p.snap.None?
    ensures Allowed(p.seen, Event.Faulted(id)) && Fine(Faulted(p, id), id, now)
    ensures Faulted(p, id).seen == p.seen.(firing := p.seen.firing.(faulted := true))
  {
    hide Note;
    FaultSeen(p.seen, id);
  }

  lemma FaultSeen(s: Seen, id: string)
    ensures Note(s, Event.Faulted(id), id) == s.(firing := s.firing.(faulted := true))
  {
  }

  lemma DeferKeeps(p: Slice, id: string, now: Time)
    requires Fine(p, id, now) && p.row.Some? && p.snap.None? && p.seen.firing.faulted
    ensures p.seen.delay == if p.memory.retryDelay.Some? then p.memory.retryDelay.value else FIRST_RETRY_SECONDS
    ensures Allowed(p.seen, Event.Deferred(id, now, p.seen.delay))
    ensures Fine(Deferred(p, id, now), id, now) && Quiet(Deferred(p, id, now), id, now)
  {
    hide Note;
    DeferSeen(p.seen, id, now);
  }

  lemma DeferSeen(s: Seen, id: string, now: Time)
    ensures Note(s, Event.Deferred(id, now, s.delay), id) ==
              s.(firing := s.firing.(faulted := false), until := Some(now + s.delay),
                 delay := Min(2.0 * s.delay, MAX_RETRY_SECONDS))
  {
  }

  predicate Quiet(p: Slice, id: string, now: Time) {
    Fine(p.(busy := false), id, now)
  }

  lemma QuietWhenSettled(p: Slice, id: string, now: Time)
    requires Fine(p, id, now) && p.row.Some?
    requires !p.row.value.Active() || p.row.value.pending.text.Some? || p.row.value.about.relay
    ensures Quiet(p, id, now)
  {
  }

  function Forgotten(m: Memory): Memory {
    m.(sent := false, recorded := false, notified := false)
  }

  /** The other phone took the stored bytes. */
  function Sent(p: Slice, id: string, body: string): Slice {
    p.(seen := Note(p.seen, Event.Sent(id, body), id), memory := p.memory.(sent := true))
  }

  lemma SendKeeps(p: Slice, id: string, now: Time)
    requires Fine(p, id, now) && p.row.Some? && p.snap.None? && p.row.value.about.relay && !p.seen.sent
    requires !p.seen.gone && p.seen.firing.due
    ensures Allowed(p.seen, Event.Sent(id, p.row.value.about.prompt))
    ensures Fine(Sent(p, id, p.row.value.about.prompt), id, now)
    ensures Sent(p, id, p.row.value.about.prompt).seen == p.seen.(sent := true, everSent := true)
  {
  }

  lemma MarkSentKeeps(p: Slice, id: string, now: Time)
    requires Fine(p, id, now) && p.row.Some? && p.snap.None? && p.memory.sent
    ensures Fine(p.(row := Some(p.row.value.(relaySent := true))), id, now)
  {
  }

  function Recorded(p: Slice, id: string, body: string): Slice {
    p.(seen := Note(p.seen, Event.Recorded(id, body), id), memory := p.memory.(recorded := true))
  }

  lemma RecordKeeps(p: Slice, id: string, now: Time)
    requires Fine(p, id, now) && p.row.Some? && p.snap.None? && p.row.value.about.relay
    requires p.seen.everSent && !p.seen.recorded
    requires !p.seen.gone && p.seen.firing.due
    ensures Allowed(p.seen, Event.Recorded(id, p.row.value.about.prompt))
    ensures var q := Recorded(p, id, p.row.value.about.prompt);
            Fine(q, id, now) && q.seen == p.seen.(recorded := true, everRecorded := true)
  {
  }

  lemma MarkRecordedKeeps(p: Slice, id: string, now: Time)
    requires Fine(p, id, now) && p.row.Some? && p.snap.None? && p.memory.recorded
    ensures Fine(p.(row := Some(p.row.value.(relayRecorded := true))), id, now)
  {
  }

  /** A cancelled job whose report, if any, already went out has nothing left to remember. */
  lemma ForgetKeeps(p: Slice, id: string, now: Time)
    requires Fine(p, id, now) && p.row.Some? && p.snap.None? && !p.row.value.Active()
    requires p.row.value.pending.text.None? || p.row.value.pending.delivered
    ensures Fine(p.(memory := Forgotten(p.memory)), id, now)
  {
  }

  function Emptied(p: Slice, id: string): Slice
    requires p.row.Some?
  {
    p.(row := Some(p.row.value.Cleared()), seen := Note(p.seen, Event.Emptied(id), id), memory := Forgotten(p.memory))
  }

  lemma ClearKeeps(p: Slice, id: string, now: Time)
    requires Fine(p, id, now) && p.row.Some? && p.snap.None? && !p.row.value.Active() && p.row.value.pending.delivered
    requires p.seen.kept
    ensures Allowed(p.seen, Event.Emptied(id))
    ensures Fine(Emptied(p, id), id, now)
  {
  }

  function Queued(p: Slice, id: string, text: string, untrusted: bool, after: After): Slice
    requires p.row.Some?
  {
    p.(row := Some(p.row.value.Queued(text, untrusted, after)),
       seen := Note(p.seen, Event.Queued(id, Report(text, untrusted, after)), id))
  }

  lemma QueueKeeps(p: Slice, id: string, now: Time, text: string, untrusted: bool, after: After)
    requires Fine(p, id, now) && p.row.Some? && p.snap.None? && p.memory.stands == map[]
    requires p.row.value.Active() && p.row.value.pending.text.None?
    requires p.row.value.about.relay ==> p.seen.everSent && p.seen.everRecorded
    requires Says(p.row.value.about, p.seen.firing, Report(text, untrusted, after))
    ensures Allowed(p.seen, Event.Queued(id, Report(text, untrusted, after)))
    ensures Fine(Queued(p, id, text, untrusted, after), id, now)
    ensures Queued(p, id, text, untrusted, after).seen.gone == p.seen.gone
  {
    hide Note, Tells;
    QueueSeen(p.seen, id, Report(text, untrusted, after));
  }

  lemma QueueSeen(s: Seen, id: string, report: Report)
    ensures Note(s, Event.Queued(id, report), id) ==
              s.(queued := Some(report), notified := false, reached := false, kept := false)
  {
  }

  function Notified(p: Slice, id: string, text: string): Slice {
    p.(seen := Note(p.seen, Event.Notified(id, text), id), memory := p.memory.(notified := true))
  }

  lemma NotifyKeeps(p: Slice, id: string, now: Time)
    requires Fine(p, id, now) && p.row.Some? && p.snap.None? && p.row.value.pending.text.Some?
    requires !p.row.value.pending.delivered && !p.memory.notified
    requires !p.seen.gone
    ensures Allowed(p.seen, Event.Notified(id, p.row.value.pending.text.value))
    ensures Fine(Notified(p, id, p.row.value.pending.text.value), id, now)
  {
  }

  /** The owner's history took the report. */
  function Kept(p: Slice, id: string,
                report: Report): Slice { p.(seen := Note(p.seen, Event.Appended(id, report), id)) }

  lemma AppendKeeps(p: Slice, id: string, now: Time)
    requires Fine(p, id, now) && p.row.Some? && p.snap.None?
    requires p.row.value.pending.text.Some? && p.row.value.pending.delivered
    ensures var report := ReportOf(p.row.value.pending);
            && Allowed(p.seen, Event.Appended(id, report))
            && Fine(Kept(p, id, report), id, now) && Kept(p, id, report).seen == p.seen.(kept := true)
  {
  }

  lemma DeliveredKeeps(p: Slice, id: string, now: Time)
    requires Fine(p, id, now) && p.row.Some? && p.snap.None? && p.memory.notified
    ensures Fine(p.(row := Some(p.row.value.Delivered())), id, now)
  {
  }

  function Settled(p: Slice, id: string): Slice {
    p.(seen := Note(p.seen, Event.Settled(id), id), memory := p.memory.(retryAt := None, retryDelay := None))
  }

  lemma SettleKeeps(p: Slice, id: string, now: Time)
    requires Fine(p, id, now) && p.row.Some? && p.snap.None? && p.busy
    ensures Allowed(p.seen, Event.Settled(id)) && Fine(Settled(p, id), id, now)
  {
  }

  /** The row and the log have moved on; memory has not. */
  function Moved(p: Slice, id: string, now: Time): Slice
    requires p.row.Some?
  {
    var r := p.row.value.Advanced(now);
    p.(row := Some(r), seen := Note(p.seen, Event.Advanced(id, now, r.nextRunAt), id))
  }

  function Advanced(p: Slice, id: string, now: Time): Slice
    requires p.row.Some?
  {
    Moved(p, id, now).(memory := Forgotten(p.memory))
  }

  /** The report went out and goes on with the schedule, or a watch had nothing to report. */
  predicate MayAdvance(r: Job, s: Seen) {
    if r.pending.text.Some? then r.pending.after == Some(After.Advance) && r.pending.delivered && s.kept
    else MayStayQuiet(s)
  }

  lemma MayMove(p: Slice, id: string, now: Time)
    requires Fine(p, id, now) && p.row.Some? && p.row.value.Active() && MayAdvance(p.row.value, p.seen)
    ensures Allowed(p.seen, Event.Advanced(id, now, p.row.value.Advanced(now).nextRunAt))
  {
  }

  lemma AdvanceKeeps(p: Slice, id: string, now: Time)
    requires Fine(p, id, now) && p.row.Some? && p.snap.None? && p.row.value.Active()
    requires MayAdvance(p.row.value, p.seen)
    ensures Allowed(p.seen, Event.Advanced(id, now, p.row.value.Advanced(now).nextRunAt))
    ensures Fine(Advanced(p, id, now), id, now) && Quiet(Advanced(p, id, now), id, now)
  {
  }

  lemma RunStartKeeps(p: Slice, id: string, now: Time, at: Time, job: Job)
    requires Fine(p, id, now) && p.row.Some? && p.snap.None?
    requires Rested(job, p.seen, p.memory) && job.nextRunAt <= at
    requires p.memory.retryAt.Some? ==> p.memory.retryAt.value <= at
    requires MayRun(p.seen) && p.seen.firing.due
    ensures Allowed(p.seen, Event.RunStarted(id, at))
    ensures Note(p.seen, Event.RunStarted(id, at), id) == p.seen
  {
  }

  lemma RunEndKeeps(p: Slice, id: string, now: Time, result: Option<Outcome>)
    requires Fine(p, id, now) && p.row.Some? && p.snap.None? && p.busy
    requires MayRun(p.seen)
    ensures Allowed(p.seen, Event.RunEnded(id, now, result))
    ensures Fine(p.(seen := Note(p.seen, Event.RunEnded(id, now, result), id)), id, now)
    ensures Note(p.seen, Event.RunEnded(id, now, result), id) ==
              p.seen.(ranAt := Some(now), firing := p.seen.firing.(result := Some(result)))
  {
  }

  lemma SeenIsItsRow(p: Slice, id: string, now: Time)
    requires Fine(p, id, now) && p.row.Some?
    ensures p.seen.about == Some(p.row.value.about)
    ensures p.seen.queued.Some? && !p.seen.cancelled ==> p.row.value.Active() && p.row.value.pending.text.Some?
    ensures p.row.value.about.relay ==> !p.seen.firing.ended && !p.row.value.about.kind.Watch?
  {
  }

  lemma StoppedIsSeen(p: Slice, id: string, now: Time)
    requires Fine(p, id, now) && p.row.Some?
    ensures p.seen.cancelled == !p.row.value.Active()
  {
  }

  lemma MarksAreTrue(p: Slice, id: string, now: Time)
    requires Fine(p, id, now) && p.row.Some?
    ensures p.row.value.relaySent || p.memory.sent ==> p.seen.everSent
    ensures p.row.value.relayRecorded || p.memory.recorded ==> p.seen.everRecorded
  {
  }

  lemma NothingRemembered(p: Slice, id: string, now: Time)
    requires Fine(p, id, now) && p.row.Some? && !p.row.value.about.relay && p.row.value.pending.text.None?
    ensures Forgotten(p.memory) == p.memory
  {
  }

  lemma OutboxIsWhole(p: Slice, id: string, now: Time)
    requires Fine(p, id, now) && p.row.Some?
    ensures p.row.value.about.id == id
    ensures p.row.value.pending.text.Some? == p.row.value.pending.after.Some?
    ensures p.row.value.about.once ==> p.row.value.about.kind.Schedule?
  {
  }

  lemma LimitKeeps(p: Slice, id: string, now: Time)
    requires Fine(p, id, now) && p.row.Some? && !p.row.value.about.relay
    requires p.seen.firing.ended || (p.seen.firing.due && p.row.value.about.kind.Schedule?)
    ensures Allowed(p.seen, Event.Limited(id)) && Note(p.seen, Event.Limited(id), id) == p.seen
  {
  }

  lemma QuietIsFine(p: Slice, id: string, now: Time)
    requires Quiet(p, id, now)
    ensures Fine(p.(busy := false), id, now)
  {
  }

  lemma BeginKeeps(p: Slice, id: string, now: Time)
    requires Fine(p, id, now) && p.snap.Some?
    ensures p.row.Some? && Waiting(p.snap.value.job, p.snap.value.at, p.row.value, p.seen, p.memory)
    ensures p.snap.value.ready ==> Ready(p.memory, p.snap.value.at)
    ensures Fine(p.(snap := None, busy := true), id, now)
    ensures !p.busy ==> Quiet(p.(snap := None, busy := true), id, now)
  {
  }

  lemma SkipKeeps(p: Slice, id: string, now: Time)
    requires Fine(p, id, now)
    ensures Fine(p.(snap := None), id, now)
  {
  }
}
