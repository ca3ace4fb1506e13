/**
 What an observer sees of the job runner: one event per effect, in order.
 `Safe` says which logs are acceptable; the lemmas say what a safe log means to the household.
 */
module RunLog {
  import opened Wrappers
  import opened Names
  import opened JobRows

  /** What the owner is to read, how it is labelled, and what becomes of the job afterwards. */
  datatype Report = Report(text: string, untrusted: bool, after: After)

  /** What a model run came to. */
  datatype Outcome = Outcome(text: string, found: bool, untrusted: bool, checked: bool)

  /** How far a turn got: it began; it failed, or could not be saved; its reply was attempted; it was broken off. */
  datatype TurnStep = Opened | Failed | Answered | BrokenOff

  datatype Event =
    | Created(id: string, about: About, every: int, next: Time, saver: Option<nat>) // inserted, perhaps by an open turn
    | Cancelled(id: string, over: bool)        // an active row was cancelled, by the runner when the job is over
    | CancelFailed(id: string)                 // a failed turn could not cancel this reminder
    | Turned(turn: nat, step: TurnStep)
    | Rescheduled(id: string, every: int, next: Time)
    | Sent(id: string, body: string)           // the other phone took the relay
    | Recorded(id: string, body: string)       // the recipient's history took the relay record
    | RunStarted(id: string, at: Time)         // a model run began
    | RunEnded(id: string, at: Time, result: Option<Outcome>) // and came to this, or raised
    | Queued(id: string, report: Report)       // the owner's report entered the outbox
    | Notified(id: string, text: string)       // the owner's phone took the report
    | Appended(id: string, report: Report)     // and the owner's history took it
    | Advanced(id: string, at: Time, next: Time)
    | Emptied(id: string)                      // the outbox of a cancelled job was emptied
    | Limited(id: string)                      // its owner may not be texted any more for now
    | Faulted(id: string)                      // a call or a write made for this job failed
    | Deferred(id: string, at: Time, delay: real)   // held off from then on for that long
    | Settled(id: string)                      // the backoff of this job was cleared
    | Polled(at: Time)                         // a tick read the rows that are due at this time
    | Restarted                                // the process lost everything it held in memory

  /** Whether a reminder still belongs to a turn: to one that runs, or to one that failed and has to cancel it. */
  datatype Hold = Free | Held(turn: nat) | Failing(turn: nat)

  /** What the last poll found of one job: its time has come, its watch is over, it is not held off; what its model run
      came to since, and whether anything failed since. */
  datatype Attempt = Attempt(due: bool, ended: bool, free: bool, result: Option<Option<Outcome>>, faulted: bool)

  const IDLE := Attempt(false, false, false, None, false)

  /** What the log says about one job. `sent`, `recorded`, `notified` and `ranAt` do not survive a restart;
      `until` is the time it is held off until; `reached` says the owner's phone took the queued report, `kept` that the
      owner's history did, `told` that the phone ever took one; `gone` that the job was cancelled already when the table
      was last polled, or the process began. */
  datatype Seen = Seen(
    about: Option<About>,
    every: int,
    next: Time,
    cancelled: bool,
    gone: bool,
    sent: bool,
    everSent: bool,
    recorded: bool,
    everRecorded: bool,
    queued: Option<Report>,
    notified: bool,
    reached: bool,
    kept: bool,
    told: bool,
    hold: Hold,
    ranAt: Option<Time>,
    firing: Attempt,
    until: Option<Time>,
    delay: real)
  {
    predicate Relay() { about.Some? && about.value.relay }

    predicate Once() { about.Some? && about.value.once }

    predicate Tainted() { about.Some? && about.value.tainted }
  }

  const FIRST_RETRY_SECONDS := 30.0
  const MAX_RETRY_SECONDS := 600.0

  const UNSEEN :=
    Seen(None, 0, 0.0, false, false, false, false, false, false, None, false, false, false, false, Free, None, IDLE,
         None, FIRST_RETRY_SECONDS)

  /** Something happens to this job, and not to a turn or the whole process. */
  predicate Concerns(e: Event, id: string) { !Wide(e) && e.id == id }

  predicate Cancels(e: Event, id: string) { e.Cancelled? && e.id == id }

  /** Something happens to a turn, to the table as a whole, or to the process. */
  predicate Wide(e: Event) { e.Restarted? || e.Turned? || e.Polled? }

  function Min(a: real, b: real): real { if a <= b then a else b }

  /** What the next deferral waits: twice as long each time, from the first delay again once something got through. */
  function NextDelay(delay: real, e: Event, id: string): real {
    if e.Restarted? then FIRST_RETRY_SECONDS
    else if !Concerns(e, id) then delay
    else if e.Deferred? then Min(2.0 * delay, MAX_RETRY_SECONDS)
    else if e.Settled? then FIRST_RETRY_SECONDS
    else delay
  }

  function NextHold(hold: Hold, e: Event, id: string): Hold {
    if e.Restarted? then Free
    else if e.Turned? then
      if hold == Held(e.turn) && e.step.Failed? then Failing(e.turn)
      else if hold == Held(e.turn) && !e.step.Opened? then Free
      else hold
    else if Concerns(e, id) && e.Created? then if e.saver.Some? then Held(e.saver.value) else Free
    else if Concerns(e, id) && e.CancelFailed? then Free
    else hold
  }

  /** A poll starts afresh with every job; what a firing learns lasts until the next one. */
  function NextFiring(s: Seen, e: Event, id: string): Attempt {
    if e.Restarted? then IDLE
    else if e.Polled? then
      Attempt(s.about.Some? && s.next <= e.at, s.about.Some? && s.about.value.Ended(e.at),
              s.about.Some? && (s.until.Some? ==> s.until.value <= e.at), None, false)
    else if !Concerns(e, id) then s.firing
    else if e.RunEnded? then s.firing.(result := Some(e.result))
    else if e.Faulted? then s.firing.(faulted := true)
    else if e.Deferred? then s.firing.(faulted := false)
    else s.firing
  }

  function Note(s: Seen, e: Event, id: string): Seen {
    var dies, mine := e.Restarted?, Concerns(e, id);
    var over := mine && e.Advanced?;
    Seen(
      if mine && e.Created? then Some(e.about) else s.about,
      if mine && (e.Created? || e.Rescheduled?) then e.every else s.every,
      if mine && (e.Created? || e.Rescheduled? || e.Advanced?) then e.next else s.next,
      s.cancelled || (mine && e.Cancelled?),
      if e.Restarted? || e.Polled? then s.cancelled else s.gone,
      !dies && !over && (s.sent || (mine && e.Sent?)),
      !over && (s.everSent || (mine && e.Sent?)),
      !dies && !over && (s.recorded || (mine && e.Recorded?)),
      !over && (s.everRecorded || (mine && e.Recorded?)),
      if over then None else if mine && e.Queued? then Some(e.report) else s.queued,
      !dies && !over && !(mine && e.Queued?) && (s.notified || (mine && e.Notified?)),
      !over && !(mine && e.Queued?) && (s.reached || (mine && e.Notified?)),
      !over && !(mine && e.Queued?) && (s.kept || (mine && e.Appended?)),
      s.told || (mine && e.Notified?),
      NextHold(s.hold, e, id),
      if dies then None else if mine && e.RunEnded? then Some(e.at) else s.ranAt,
      NextFiring(s, e, id),
      if dies || (mine && e.Settled?) then None else if mine && e.Deferred? then Some(e.at + e.delay) else s.until,
      NextDelay(s.delay, e, id))
  }

  lemma NotMine(s: Seen, e: Event, id: string)
    requires !Wide(e) && e.id != id
    ensures Note(s, e, id) == s
  {
  }

  function SeenOf(log: seq<Event>, id: string): Seen {
    if log == [] then UNSEEN else Note(SeenOf(log[..|log|-1], id), log[|log|-1], id)
  }

  const SENT_ON := "Sent to the other phone:\n"
  const WATCH_ENDED := "This watch ended. Nothing further will run unless you create it again."
  const CHECK_FAILED := "This check failed. I could not complete it."
  const NOTHING_FOUND := "Nothing to report."

  /** A report under the name of its job. */
  predicate Under(name: string, text: string, body: string) { text == "[job: " + name + "]\n" + body }

  /** What the result of a model run has its owner told, and when it taints the report. */
  predicate Tells(about: About, ended: bool, result: Option<Outcome>, report: Report) {
    if result.None? || (!result.value.found && !result.value.checked) then Under(about.name, report.text, CHECK_FAILED)
    else if result.value.found then
      && Under(about.name, report.text, Strip(result.value.text))
      && (result.value.untrusted ==> report.untrusted)
    else if about.kind.Schedule? then
      Under(about.name, report.text, NOTHING_FOUND) && (result.value.untrusted ==> report.untrusted)
    else ended && Under(about.name, report.text, WATCH_ENDED)
  }

  /** What may be reported of a job at this point of its firing. */
  predicate Says(about: About, f: Attempt, report: Report) {
    && (about.tainted ==> report.untrusted)
    && (report.after.Cancel? <==> about.once || f.ended)
    && (if about.relay then f.due && report.text == SENT_ON + about.prompt
        else if f.result.Some? then f.due && Tells(about, f.ended, f.result.value, report)
        else if f.ended && !f.due then Under(about.name, report.text, WATCH_ENDED)
        else f.due && about.verbatim && report.text == about.prompt)
  }

  /** Only a watch that looked and found nothing goes on without a word. */
  predicate MayStayQuiet(s: Seen) {
    && s.about.Some? && s.about.value.kind.Watch? && !s.about.value.once && !s.firing.ended
    && s.firing.result.Some? && s.firing.result.value.Some?
    && !s.firing.result.value.value.found && s.firing.result.value.value.checked
  }

  /** The model is asked once a firing, and never about a relay or a reminder. */
  predicate MayRun(s: Seen) {
    && !s.gone && s.about.Some? && !s.about.value.relay && !s.about.value.verbatim
    && s.queued.None? && s.firing.result.None?
  }

  /** May this event happen to a job the log describes as `s`? */
  predicate Allowed(s: Seen, e: Event) {
    match e
    case Created(_, _, every, _, _) => s == UNSEEN && every >= MIN_EVERY_SECONDS
    case Cancelled(_, over) =>
      && s.about.Some? && !s.cancelled
      && (over ==> s.queued.Some? && s.queued.value.after.Cancel? && s.reached && s.kept)
    case CancelFailed(_) => s.hold.Failing?
    case Turned(_, _) => true
    case Rescheduled(_, every, _) => !s.cancelled && every >= MIN_EVERY_SECONDS
    case Sent(_, body) => !s.gone && s.Relay() && !s.sent && s.about.value.prompt == body && s.firing.due
    case Recorded(_, body) =>
      !s.gone && s.Relay() && !s.recorded && s.everSent && s.about.value.prompt == body && s.firing.due
    case RunStarted(_, at) =>
      && MayRun(s) && s.firing.due && (s.ranAt.Some? ==> at >= s.ranAt.value + 30.0)
    case RunEnded(_, _, _) => MayRun(s)
    case Queued(_, report) =>
      && !s.cancelled && s.hold.Free? && s.queued.None? && (s.Relay() ==> s.everSent && s.everRecorded)
      && s.about.Some? && Says(s.about.value, s.firing, report)
    case Notified(_, text) => !s.gone && s.queued.Some? && s.queued.value.text == text && !s.notified
    case Appended(_, report) => s.queued == Some(report) && s.reached
    case Advanced(_, at, next) =>
      && !s.cancelled && next == at + s.every as real
      && (if s.queued.Some? then s.queued.value.after.Advance? && s.reached && s.kept else MayStayQuiet(s))
    case Emptied(_) => s.reached && s.kept
    case Limited(_) => s.about.Some? && !s.Relay() && (s.firing.ended || (s.firing.due && s.about.value.kind.Schedule?))
    case Faulted(_) => s.about.Some?
    case Deferred(_, _, delay) => delay == s.delay && s.firing.faulted
    case Settled(_) => true
    case Polled(_) => true
    case Restarted => true
  }

  datatype TurnState = Unopened | Running | Over(last: TurnStep) | Gone

  function NextTurn(state: TurnState, e: Event, turn: nat): TurnState {
    if e.Restarted? then if state.Unopened? then Unopened else Gone
    else if !e.Turned? || e.turn != turn then state
    else if e.step.Opened? then Running
    else Over(e.step)
  }

  /** What the log says about one turn. A turn does not outlive its process. */
  function TurnOf(log: seq<Event>, turn: nat): TurnState {
    if log == [] then Unopened else NextTurn(TurnOf(log[..|log|-1], turn), log[|log|-1], turn)
  }

  /** A turn begins once and ends one way. */
  predicate TurnMay(state: TurnState, step: TurnStep) {
    if step.Opened? then state.Unopened? else state.Running?
  }

  /** A step of a firing that anybody can notice. */
  predicate Tries(e: Event) {
    e.Sent? || e.Recorded? || e.RunStarted? || e.Queued? || e.Notified? || e.Appended?
  }

  /** May this happen next? Only a running turn saves a reminder, and nothing is tried for a job that is held off. */
  predicate MayFollow(log: seq<Event>, e: Event) {
    if e.Restarted? || e.Polled? then true
    else if e.Turned? then TurnMay(TurnOf(log, e.turn), e.step)
    else
      && Allowed(SeenOf(log, e.id), e) && (Tries(e) ==> SeenOf(log, e.id).firing.free)
      && (e.Created? && e.saver.Some? ==> TurnOf(log, e.saver.value).Running?)
  }

  ghost predicate Safe(log: seq<Event>) {
    forall k :: 0 <= k < |log| ==> AllowedAt(log, k)
  }

  ghost predicate AllowedAt(log: seq<Event>, k: nat)
    requires k < |log|
  {
    MayFollow(log[..k], log[k])
  }

  lemma Extend(log: seq<Event>, e: Event)
    requires Safe(log) && MayFollow(log, e)
    ensures Safe(log + [e])
    ensures forall id :: SeenOf(log + [e], id) == Note(SeenOf(log, id), e, id)
    ensures forall turn :: TurnOf(log + [e], turn) == NextTurn(TurnOf(log, turn), e, turn)
  {
    var more := log + [e];
    assert more[..|log|] == log;
    forall k | 0 <= k < |more| ensures AllowedAt(more, k) {
      if k < |log| {
        assert more[..k] == log[..k] && AllowedAt(log, k);
      }
    }
  }

  // ------------------------------------------------------------------ what a safe log means

  /** The three effects outside this process: text the other phone, write the recipient's record, text the owner. */
  datatype Effect = Text | Record | Tell

  predicate Does(e: Event, what: Effect, id: string) {
    match what
    case Text => e.Sent? && e.id == id
    case Record => e.Recorded? && e.id == id
    case Tell => e.Notified? && e.id == id
  }

  /** After this the effect is owed again: the next run, or for the owner's text the next report. */
  predicate Renews(e: Event, what: Effect, id: string) {
    || (e.Advanced? && e.id == id)
    || (what.Tell? && e.Queued? && e.id == id)
  }

  predicate Done(s: Seen, what: Effect) {
    match what
    case Text => s.sent
    case Record => s.recorded
    case Tell => s.notified
  }

  /** From `i` up to `k` no new run, and for the owner's text no new report, begins. */
  predicate SameRun(log: seq<Event>, i: nat, k: nat, what: Effect, id: string) {
    forall m :: i <= m < k <= |log| ==> !Renews(log[m], what, id)
  }

  function Times(log: seq<Event>, i: nat, k: nat, what: Effect, id: string): nat
    requires i <= k <= |log|
    decreases k
  {
    if i == k then 0 else Times(log, i, k - 1, what, id) + if Does(log[k-1], what, id) then 1 else 0
  }

  function Restarts(log: seq<Event>, i: nat, k: nat): nat
    requires i <= k <= |log|
    decreases k
  {
    if i == k then 0 else Restarts(log, i, k - 1) + if log[k-1].Restarted? then 1 else 0
  }

  lemma Step(log: seq<Event>, k: nat, id: string)
    requires k < |log|
    ensures SeenOf(log[..k+1], id) == Note(SeenOf(log[..k], id), log[k], id)
  {
    assert log[..k+1][..k] == log[..k];
  }

  lemma DoneMoves(s: Seen, e: Event, what: Effect, id: string)
    requires !Renews(e, what, id)
    ensures Done(Note(s, e, id), what) == (!e.Restarted? && (Done(s, what) || Does(e, what, id)))
    ensures Does(e, what, id) && Allowed(s, e) ==> !Done(s, what)
  {
  }

  lemma {:induction false} EffectsAreCovered(log: seq<Event>, i: nat, k: nat, what: Effect, id: string)
    requires Safe(log) && i <= k <= |log| && SameRun(log, i, k, what, id)
    ensures Times(log, i, k, what, id) <= Restarts(log, i, k) + if Done(SeenOf(log[..k], id), what) then 1 else 0
    decreases k
  {
    hide Note, SeenOf, Allowed, Done;
    if i < k {
      EffectsAreCovered(log, i, k - 1, what, id);
      Step(log, k - 1, id);
      assert AllowedAt(log, k - 1);
      DoneMoves(SeenOf(log[..k-1], id), log[k-1], what, id);
    }
  }

  /**
   One run of a job texts the other phone, writes the recipient's record, and one report texts the owner,
   at most once plus once for every restart that happened meanwhile, whatever else failed or was retried.
   */
  lemma AtMostOncePlusRestarts(log: seq<Event>, i: nat, k: nat, what: Effect, id: string)
    requires Safe(log) && i <= k <= |log| && SameRun(log, i, k, what, id)
    ensures Times(log, i, k, what, id) <= 1 + Restarts(log, i, k)
  {
    EffectsAreCovered(log, i, k, what, id);
  }

  predicate Ever(s: Seen, what: Effect) {
    match what
    case Text => s.everSent
    case Record => s.everRecorded
    case Tell => s.told
  }

  lemma EverMoves(s: Seen, e: Event, what: Effect, id: string)
    requires !what.Tell?
    ensures Ever(Note(s, e, id), what) == (!Renews(e, what, id) && (Ever(s, what) || Does(e, what, id)))
  {
  }

  /** Where this run last texted the other phone, or last wrote the record; -1 when it has not. */
  lemma {:induction false} LastDone(log: seq<Event>, k: nat, what: Effect, id: string) returns (at: int)
    requires k <= |log| && !what.Tell?
    ensures -1 <= at < k
    ensures Ever(SeenOf(log[..k], id), what) == (at >= 0)
    ensures at >= 0 ==> Does(log[at], what, id) && SameRun(log, at, k, what, id)
    decreases k
  {
    at := -1;
    if k > 0 {
      hide Note, SeenOf, Ever;
      at := LastDone(log, k - 1, what, id);
      Step(log, k - 1, id);
      EverMoves(SeenOf(log[..k-1], id), log[k-1], what, id);
      at := if Renews(log[k-1], what, id) then -1 else if Does(log[k-1], what, id) then k - 1 else at;
    }
  }

  lemma AboutMoves(s: Seen, e: Event, id: string)
    ensures Note(s, e, id).about == if Concerns(e, id) && e.Created? then Some(e.about) else s.about
    ensures Allowed(s, e) && e.Created? ==> s.about.None?
  {
  }

  lemma {:induction false} CreatedStays(log: seq<Event>, c: nat, k: nat, id: string)
    requires Safe(log) && c < k <= |log| && log[c].Created? && log[c].id == id
    ensures SeenOf(log[..k], id).about == Some(log[c].about)
    decreases k
  {
    hide SeenOf, Note, Allowed;
    Step(log, k - 1, id);
    assert AllowedAt(log, k - 1);
    AboutMoves(SeenOf(log[..k-1], id), log[k-1], id);
    if c < k - 1 {
      CreatedStays(log, c, k - 1, id);
    }
  }

  /**
   What the other phone reads, and what its owner's history records, is the text stored when the relay was confirmed.
   */
  lemma RelaySendsTheStoredBytes(log: seq<Event>, c: nat, k: nat, id: string)
    requires Safe(log) && c < k < |log| && log[c].Created? && log[c].id == id
    requires Does(log[k], Text, id) || Does(log[k], Record, id)
    ensures log[c].about.relay && log[k].body == log[c].about.prompt
  {
    CreatedStays(log, c, k, id);
    assert AllowedAt(log, k);
  }

  /** The sender is told a relay went out only after this run's send and this run's record both happened. */
  lemma RelayReportedAfterBoth(log: seq<Event>, c: nat, k: nat, id: string) returns (sentAt: nat, recordedAt: nat)
    requires Safe(log) && c < k < |log| && log[c].Created? && log[c].id == id && log[c].about.relay
    requires log[k].Queued? && log[k].id == id
    ensures sentAt < k && Does(log[sentAt], Text, id) && SameRun(log, sentAt, k, Text, id)
    ensures recordedAt < k && Does(log[recordedAt], Record, id) && SameRun(log, recordedAt, k, Record, id)
  {
    CreatedStays(log, c, k, id);
    assert AllowedAt(log, k);
    var a := LastDone(log, k, Text, id);
    var b := LastDone(log, k, Record, id);
    sentAt, recordedAt := a, b;
  }

  /** What ends a turn's hold on a reminder it saved. */
  predicate Frees(e: Event, turn: nat, id: string) {
    || e.Restarted? || e == Turned(turn, Answered) || e == Turned(turn, BrokenOff) || e == CancelFailed(id)
  }

  predicate HeldBy(s: Seen, turn: nat) { s.hold == Held(turn) || s.hold == Failing(turn) }

  lemma HeldMoves(s: Seen, e: Event, turn: nat, id: string)
    requires HeldBy(s, turn) && !Frees(e, turn, id) && !(Concerns(e, id) && e.Created?)
    ensures HeldBy(Note(s, e, id), turn)
  {
  }

  lemma HeldAtFirst(s: Seen, e: Event, id: string)
    requires e.Created? && e.id == id && e.saver.Some?
    ensures HeldBy(Note(s, e, id), e.saver.value) && Note(s, e, id).hold == Held(e.saver.value)
  {
  }

  lemma {:induction false} HeldStays(log: seq<Event>, c: nat, k: nat, id: string)
    requires Safe(log) && c < k <= |log| && log[c].Created? && log[c].id == id && log[c].saver.Some?
    requires forall m :: c < m < k ==> !Frees(log[m], log[c].saver.value, id)
    ensures HeldBy(SeenOf(log[..k], id), log[c].saver.value)
    decreases k
  {
    hide TurnOf, SeenOf, Note, HeldBy, Safe;
    Step(log, k - 1, id);
    if c < k - 1 {
      HeldStays(log, c, k - 1, id);
      CreatedOnce(log, c, k - 1, id);
      HeldMoves(SeenOf(log[..k-1], id), log[k-1], log[c].saver.value, id);
    } else {
      HeldAtFirst(SeenOf(log[..c], id), log[c], id);
    }
  }

  /**
   A reminder saved by a turn is queued for its owner only after that turn's reply was attempted, unless the turn was
   broken off, or failed and could not cancel it, or the process died.
   */
  lemma ReminderWaitsForItsTurn(log: seq<Event>, c: nat, k: nat, id: string)
    requires Safe(log) && c < k < |log| && log[c].Created? && log[c].id == id && log[c].saver.Some?
    requires log[k].Queued? && log[k].id == id
    ensures exists m :: c < m < k && Frees(log[m], log[c].saver.value, id)
  {
    assert AllowedAt(log, k);
    if forall m :: c < m < k ==> !Frees(log[m], log[c].saver.value, id) {
      HeldStays(log, c, k, id);
    }
  }

  lemma TurnStepAt(log: seq<Event>, k: nat, turn: nat)
    requires k < |log|
    ensures TurnOf(log[..k+1], turn) == NextTurn(TurnOf(log[..k], turn), log[k], turn)
  {
    assert log[..k+1][..k] == log[..k];
  }

  /** A turn that is over, one way or with its process, does not run again. */
  lemma {:induction false} TurnStaysOver(log: seq<Event>, i: nat, k: nat, turn: nat)
    requires Safe(log) && i <= k <= |log|
    requires TurnOf(log[..i], turn).Over? || TurnOf(log[..i], turn).Gone?
    ensures TurnOf(log[..k], turn).Over? || TurnOf(log[..k], turn).Gone?
    decreases k
  {
    if i < k {
      TurnStaysOver(log, i, k - 1, turn);
      TurnStepAt(log, k - 1, turn);
      assert AllowedAt(log, k - 1);
    }
  }

  /** Until its turn fails, a reminder is held by it: the turn was running when it saved it and when it failed. */
  lemma {:induction false} HeldUntilFailed(log: seq<Event>, c: nat, k: nat, i: nat, id: string, turn: nat)
    requires Safe(log) && c < k <= i < |log| && log[i] == Turned(turn, Failed)
    requires log[c].Created? && log[c].id == id && log[c].saver == Some(turn)
    ensures SeenOf(log[..k], id).hold == Held(turn)
    decreases k
  {
    Step(log, k - 1, id);
    assert AllowedAt(log, k - 1);
    if c < k - 1 {
      HeldUntilFailed(log, c, k - 1, i, id, turn);
      StillRunning(log, c, k - 1, i, turn);
    }
  }

  lemma StillRunning(log: seq<Event>, c: nat, m: nat, i: nat, turn: nat)
    requires Safe(log) && c < m < i < |log| && log[i] == Turned(turn, Failed)
    requires log[c].Created? && log[c].saver == Some(turn)
    ensures !log[m].Restarted? && !(log[m].Turned? && log[m].turn == turn)
  {
    assert AllowedAt(log, i) && AllowedAt(log, m) && AllowedAt(log, c);
    TurnStepAt(log, m, turn);
    if log[m].Restarted? || (log[m].Turned? && log[m].turn == turn && !log[m].step.Opened?) {
      NotUnopened(log, c, m, turn);
      TurnStaysOver(log, m + 1, i, turn);
    } else if log[m].Turned? && log[m].turn == turn {
      NotUnopened(log, c, m, turn);
    }
  }

  lemma {:induction false} NotUnopened(log: seq<Event>, c: nat, k: nat, turn: nat)
    requires Safe(log) && c <= k <= |log| && !TurnOf(log[..c], turn).Unopened?
    ensures !TurnOf(log[..k], turn).Unopened?
    decreases k
  {
    if c < k {
      NotUnopened(log, c, k - 1, turn);
      TurnStepAt(log, k - 1, turn);
    }
  }

  /** Once its turn failed: never told, never queued, and still to be cancelled or already cancelled. */
  predicate Doomed(s: Seen, turn: nat) {
    !s.told && s.queued.None? && (s.hold == Failing(turn) || s.cancelled)
  }

  lemma {:induction false} UntoldWhileHeld(log: seq<Event>, c: nat, k: nat, id: string)
    requires Safe(log) && c < k <= |log| && log[c].Created? && log[c].id == id && log[c].saver.Some?
    requires forall m :: c < m < k ==> !Frees(log[m], log[c].saver.value, id)
    ensures SeenOf(log[..k], id).queued.None? && !SeenOf(log[..k], id).told
    decreases k
  {
    hide TurnOf, SeenOf, Says;
    Step(log, k - 1, id);
    assert AllowedAt(log, k - 1);
    if c < k - 1 {
      UntoldWhileHeld(log, c, k - 1, id);
      HeldStays(log, c, k - 1, id);
    }
  }

  /** The process lived until the row was cancelled, and the cancel did not fail. */
  predicate RollbackRan(log: seq<Event>, i: nat, id: string) {
    forall m :: i < m < |log| ==>
      && log[m] != CancelFailed(id)
      && (log[m].Restarted? ==> exists j :: 0 <= j < m && Cancels(log[j], id))
  }

  lemma DoomMoves(s: Seen, e: Event, id: string, turn: nat)
    requires Doomed(s, turn) && (Concerns(e, id) ==> Allowed(s, e) && !e.Created?)
    requires e != CancelFailed(id) && (e.Restarted? ==> s.cancelled)
    ensures Doomed(Note(s, e, id), turn)
  {
  }

  lemma DoomStarts(log: seq<Event>, c: nat, i: nat, id: string, turn: nat)
    requires Safe(log) && c < i < |log| && log[i] == Turned(turn, Failed)
    requires log[c].Created? && log[c].id == id && log[c].saver == Some(turn)
    ensures Doomed(SeenOf(log[..i+1], id), turn)
  {
    hide TurnOf;
    Step(log, i, id);
    HeldUntilFailed(log, c, i, i, id, turn);
    forall m | c < m < i ensures !Frees(log[m], turn, id) {
      StillRunning(log, c, m, i, turn);
      HeldUntilFailed(log, c, m, i, id, turn);
      assert AllowedAt(log, m);
    }
    UntoldWhileHeld(log, c, i, id);
  }

  lemma {:induction false} DoomedStays(log: seq<Event>, c: nat, i: nat, k: nat, id: string, turn: nat)
    requires Safe(log) && c < i < k <= |log| && log[i] == Turned(turn, Failed) && RollbackRan(log, i, id)
    requires log[c].Created? && log[c].id == id && log[c].saver == Some(turn)
    ensures Doomed(SeenOf(log[..k], id), turn)
    decreases k
  {
    hide TurnOf, SeenOf, Note, Doomed, Allowed, TurnMay, Tries;
    if i == k - 1 {
      DoomStarts(log, c, i, id, turn);
    } else {
      DoomedStays(log, c, i, k - 1, id, turn);
      DoomStep(log, c, i, k - 1, id, turn);
    }
  }

  lemma DoomStep(log: seq<Event>, c: nat, i: nat, k: nat, id: string, turn: nat)
    requires Safe(log) && c < i < k < |log| && RollbackRan(log, i, id) && log[c].Created? && log[c].id == id
    requires Doomed(SeenOf(log[..k], id), turn)
    ensures Doomed(SeenOf(log[..k+1], id), turn)
  {
    hide TurnOf, SeenOf, Note, Doomed, Allowed, TurnMay, Tries;
    Step(log, k, id);
    assert AllowedAt(log, k);
    if log[k].Restarted? {
      var j :| 0 <= j < k && Cancels(log[j], id);
      CancelStays(log, j, k, id);
    }
    CreatedOnce(log, c, k, id);
    DoomMoves(SeenOf(log[..k], id), log[k], id, turn);
  }

  lemma CreatedOnce(log: seq<Event>, c: nat, k: nat, id: string)
    requires Safe(log) && c < k < |log| && log[c].Created? && log[c].id == id
    ensures !(log[k].Created? && log[k].id == id)
  {
    CreatedStays(log, c, k, id);
    assert AllowedAt(log, k);
  }

  /**
   A reminder saved by a turn that then failed, or could not be saved, is never texted, stale polls included, as long
   as the process lives until its row is cancelled and that write succeeds.
   */
  lemma FailedTurnsReminderIsNeverTexted(log: seq<Event>, c: nat, i: nat, k: nat, id: string, turn: nat)
    requires Safe(log) && c < i < |log| && k < |log| && log[i] == Turned(turn, Failed) && RollbackRan(log, i, id)
    requires log[c].Created? && log[c].id == id && log[c].saver == Some(turn)
    ensures !Does(log[k], Tell, id)
  {
    assert AllowedAt(log, k);
    if i < k {
      DoomedStays(log, c, i, k, id, turn);
    } else if k < i && Does(log[k], Tell, id) {
      ToldStays(log, k, i + 1, id);
      DoomedStays(log, c, i, i + 1, id, turn);
    }
  }

  /** A reminder as a turn saves it. */
  predicate Reminder(about: About) {
    about.kind.Schedule? && about.verbatim && !about.relay && !about.once && !about.tainted
  }

  /** Neither exception can be left out: after a failed cancel, or a death before it, the reminder may be texted. */
  lemma FailedTurnsReminderCanBeTexted(about: About, turn: nat, end: Event, next: Time) returns (log: seq<Event>)
    requires Reminder(about) && (end == CancelFailed(about.id) || end == Restarted)
    ensures Safe(log) && |log| == 7 && log[1] == Created(about.id, about, MIN_EVERY_SECONDS, next, Some(turn))
    ensures log[2] == Turned(turn, Failed) && log[3] == end && log[4] == Polled(next) && Does(log[6], Tell, about.id)
  {
    hide SeenOf, TurnOf, Safe, Note, Allowed;
    var report := Report(about.prompt, false, Advance);
    log := TurnFailedOnce(about, turn, next);
    FreeAgain(about, turn, end, next);
    log := Then(log, end, about.id, turn);
    log := Then(log, Polled(next), about.id, turn);
    log := Then(log, Queued(about.id, report), about.id, turn);
    log := Then(log, Notified(about.id, about.prompt), about.id, turn);
  }

  /** A reminder, and no more, in a turn that failed. */
  function SavedInVain(about: About, turn: nat, next: Time): Seen {
    UNSEEN.(about := Some(about), every := MIN_EVERY_SECONDS, next := next, hold := Failing(turn))
  }

  lemma TurnFailedOnce(about: About, turn: nat, next: Time) returns (log: seq<Event>)
    ensures log == [Turned(turn, Opened), Created(about.id, about, MIN_EVERY_SECONDS, next, Some(turn)),
                    Turned(turn, Failed)]
    ensures Safe(log) && SeenOf(log, about.id) == SavedInVain(about, turn, next)
  {
    hide SeenOf, TurnOf, Safe;
    NothingYet(about.id, turn);
    log := Then([], Turned(turn, Opened), about.id, turn);
    log := Then(log, Created(about.id, about, MIN_EVERY_SECONDS, next, Some(turn)), about.id, turn);
    log := Then(log, Turned(turn, Failed), about.id, turn);
  }

  lemma FreeAgain(about: About, turn: nat, end: Event, next: Time)
    requires Reminder(about) && (end == CancelFailed(about.id) || end == Restarted)
    ensures var report := Report(about.prompt, false, Advance);
            var saved := SavedInVain(about, turn, next);
            var polled := Note(Note(saved, end, about.id), Polled(next), about.id);
            && (end.CancelFailed? ==> Allowed(saved, end))
            && Allowed(polled, Queued(about.id, report)) && polled.firing.free
            && Note(polled, Queued(about.id, report), about.id).firing.free
            && Allowed(Note(polled, Queued(about.id, report), about.id), Notified(about.id, about.prompt))
  {
  }

  lemma NothingYet(id: string, turn: nat)
    ensures Safe([]) && SeenOf([], id) == UNSEEN && TurnOf([], turn) == Unopened
  {
  }

  lemma Then(log: seq<Event>, e: Event, id: string, turn: nat) returns (more: seq<Event>)
    requires Safe(log) && MayFollow(log, e)
    ensures more == log + [e] && Safe(more)
    ensures SeenOf(more, id) == Note(SeenOf(log, id), e, id)
    ensures TurnOf(more, turn) == NextTurn(TurnOf(log, turn), e, turn)
  {
    Extend(log, e);
    more := log + [e];
  }

  lemma {:induction false} CancelStays(log: seq<Event>, i: nat, k: nat, id: string)
    requires i < k <= |log| && Cancels(log[i], id)
    ensures SeenOf(log[..k], id).cancelled
    decreases k
  {
    Step(log, k - 1, id);
    if i < k - 1 {
      CancelStays(log, i, k - 1, id);
    }
  }

  /** Cancel wins: afterwards no report enters the outbox, no run is scheduled and no interval changes. */
  lemma CancelWins(log: seq<Event>, i: nat, k: nat, id: string)
    requires Safe(log) && i < k < |log| && Cancels(log[i], id) && Concerns(log[k], id)
    ensures !log[k].Queued? && !log[k].Advanced? && !log[k].Rescheduled? && !log[k].Cancelled? && !log[k].Created?
  {
    CancelStays(log, i, k, id);
    assert AllowedAt(log, k);
  }

  lemma QueuedMoves(s: Seen, e: Event, id: string)
    ensures Note(s, e, id).queued ==
              if Concerns(e, id) && e.Advanced? then None
              else if Concerns(e, id) && e.Queued? then Some(e.report)
              else s.queued
  {
  }

  lemma {:induction false} GoneStays(log: seq<Event>, i: nat, m: nat, k: nat, id: string)
    requires i < m < k <= |log| && Cancels(log[i], id) && (log[m].Polled? || log[m].Restarted?)
    ensures SeenOf(log[..k], id).gone
    decreases k
  {
    hide SeenOf;
    Step(log, k - 1, id);
    CancelStays(log, i, k - 1, id);
    if m < k - 1 {
      GoneStays(log, i, m, k - 1, id);
    }
  }

  /**
   From the next poll on, or the next process, nothing of a cancelled job leaves the house: no relay, no record, no
   model run, and not even the report that was waiting for its owner.
   */
  lemma NothingLeavesAfterCancel(log: seq<Event>, i: nat, m: nat, k: nat, id: string)
    requires Safe(log) && i < m < k < |log| && Cancels(log[i], id) && (log[m].Polled? || log[m].Restarted?)
    ensures !((log[k].Sent? || log[k].Recorded? || log[k].RunStarted? || log[k].RunEnded? || log[k].Notified?)
              && log[k].id == id)
  {
    GoneStays(log, i, m, k, id);
    assert AllowedAt(log, k);
  }

  /** The report in the outbox is the one queued at `q`; -1 when there is none. */
  ghost predicate FromOutbox(log: seq<Event>, k: nat, id: string, queued: Option<Report>, q: int) {
    if q == -1 then queued.None?
    else
      && 0 <= q < k <= |log| && log[q].Queued? && log[q].id == id
      && queued == Some(log[q].report) && SameRun(log, q + 1, k, Tell, id)
  }

  lemma OutboxMoves(log: seq<Event>, k: nat, id: string, queued: Option<Report>, q: int) returns (next: int)
    requires k < |log| && FromOutbox(log, k, id, queued, q)
    ensures var e := log[k];
            FromOutbox(log, k + 1, id, if Concerns(e, id) && e.Advanced? then None
                                       else if Concerns(e, id) && e.Queued? then Some(e.report) else queued, next)
  {
    var e := log[k];
    next := if Concerns(e, id) && e.Queued? then k else if Concerns(e, id) && e.Advanced? then -1 else q;
  }

  lemma {:induction false} ReportComesFromOutbox(log: seq<Event>, k: nat, id: string) returns (q: int)
    requires k <= |log|
    ensures FromOutbox(log, k, id, SeenOf(log[..k], id).queued, q)
    decreases k
  {
    if k == 0 {
      q := -1;
    } else {
      hide SeenOf, Note, FromOutbox;
      q := ReportComesFromOutbox(log, k - 1, id);
      Step(log, k - 1, id);
      QueuedMoves(SeenOf(log[..k-1], id), log[k-1], id);
      q := OutboxMoves(log, k - 1, id, SeenOf(log[..k-1], id).queued, q);
    }
  }

  /** What the owner reads is the report queued for this run, word for word. */
  lemma OwnerReadsTheQueuedReport(log: seq<Event>, k: nat, id: string) returns (q: nat)
    requires Safe(log) && k < |log| && log[k].Notified? && log[k].id == id
    ensures q < k && log[q].Queued? && log[q].id == id && log[q].report.text == log[k].text
    ensures SameRun(log, q + 1, k, Tell, id)
  {
    assert AllowedAt(log, k);
    var at := ReportComesFromOutbox(log, k, id);
    q := at;
  }

  lemma ReachMoves(s: Seen, e: Event, id: string)
    ensures Note(s, e, id).reached ==>
              (s.reached && !Renews(e, Tell, id)) || (e.Notified? && e.id == id)
    ensures Note(s, e, id).kept ==> (s.kept && !Renews(e, Tell, id)) || (e.Appended? && e.id == id)
  {
  }

  lemma {:induction false} ReachedByNotice(log: seq<Event>, q: nat, k: nat, id: string)
    requires Safe(log) && q < k <= |log| && log[q].Queued? && log[q].id == id && SameRun(log, q + 1, k, Tell, id)
    ensures SeenOf(log[..k], id).queued == Some(log[q].report)
    ensures SeenOf(log[..k], id).reached ==> exists m :: q < m < k && log[m] == Notified(id, log[q].report.text)
    ensures SeenOf(log[..k], id).kept ==> exists m :: q < m < k && log[m] == Appended(id, log[q].report)
    decreases k
  {
    hide SeenOf, Note, Says;
    Step(log, k - 1, id);
    assert AllowedAt(log, k - 1);
    QueuedMoves(SeenOf(log[..k-1], id), log[k-1], id);
    ReachMoves(SeenOf(log[..k-1], id), log[k-1], id);
    if q < k - 1 {
      ReachedByNotice(log, q, k - 1, id);
    }
  }

  /**
   No report is lost: it leaves the outbox, by an advance or on a cancelled job, only after the owner's phone took it
   and the owner's history took it, label and all.
   */
  lemma NoReportIsLost(log: seq<Event>, q: nat, k: nat, id: string)
    requires Safe(log) && q < k < |log| && log[q].Queued? && log[q].id == id && SameRun(log, q + 1, k, Tell, id)
    requires (log[k].Advanced? || log[k].Emptied?) && log[k].id == id
    ensures exists m :: q < m < k && log[m] == Notified(id, log[q].report.text)
    ensures exists m :: q < m < k && log[m] == Appended(id, log[q].report)
  {
    ReachedByNotice(log, q, k, id);
    assert AllowedAt(log, k);
  }

  /** The owner's history takes only the report queued for this run, and only after the owner's phone took it. */
  lemma HistoryTakesWhatWasTold(log: seq<Event>, k: nat, id: string) returns (q: nat)
    requires Safe(log) && k < |log| && log[k].Appended? && log[k].id == id
    ensures q < k && log[q] == Queued(id, log[k].report)
    ensures exists m :: q < m < k && log[m] == Notified(id, log[q].report.text)
  {
    assert AllowedAt(log, k);
    var at := ReportComesFromOutbox(log, k, id);
    q := at;
    ReachedByNotice(log, q, k, id);
  }

  /**
   The runner cancels a job itself only when the last report, one that ends the job, was told and is in the history.
   */
  lemma RunnerEndsOnlyWhatIsOver(log: seq<Event>, k: nat, id: string) returns (q: nat)
    requires Safe(log) && k < |log| && log[k] == Cancelled(id, true)
    ensures q < k && log[q].Queued? && log[q].id == id && log[q].report.after.Cancel?
    ensures exists m :: q < m < k && log[m] == Notified(id, log[q].report.text)
    ensures exists m :: q < m < k && log[m] == Appended(id, log[q].report)
  {
    assert AllowedAt(log, k);
    var at := ReportComesFromOutbox(log, k, id);
    q := at;
    ReachedByNotice(log, q, k, id);
  }

  lemma {:induction false} LastReportStays(log: seq<Event>, i: nat, k: nat, id: string)
    requires Safe(log) && i < k <= |log| && log[i].Queued? && log[i].id == id && log[i].report.after.Cancel?
    ensures SeenOf(log[..k], id).queued.Some? && SeenOf(log[..k], id).queued.value.after.Cancel?
    decreases k
  {
    hide SeenOf, Note, Says;
    Step(log, k - 1, id);
    QueuedMoves(SeenOf(log[..k-1], id), log[k-1], id);
    assert AllowedAt(log, k - 1);
    if i < k - 1 {
      LastReportStays(log, i, k - 1, id);
    }
  }

  /**
   A report that ends its job is the last one: nothing more is queued or scheduled, failed writes and restarts
   included.
   */
  lemma LastReportEndsTheJob(log: seq<Event>, i: nat, k: nat, id: string)
    requires Safe(log) && i < k < |log| && log[i].Queued? && log[i].id == id && log[i].report.after.Cancel?
    ensures !((log[k].Queued? || log[k].Advanced?) && log[k].id == id)
  {
    LastReportStays(log, i, k, id);
    assert AllowedAt(log, k);
  }

  /** What has been told of a one-time job is covered by its only report and by restarts. */
  predicate OneTime(s: Seen, told: nat, restarts: nat) {
    && s.Once()
    && (s.queued.Some? ==> s.queued.value.after.Cancel?)
    && told <= restarts + (if s.notified then 1 else 0)
    && (s.queued.None? ==> told == 0 && !s.notified)
  }

  lemma OneTimeMoves(s: Seen, told: nat, restarts: nat, e: Event, id: string)
    requires OneTime(s, told, restarts) && (Concerns(e, id) ==> Allowed(s, e))
    ensures OneTime(Note(s, e, id), told + (if Does(e, Tell, id) then 1 else 0),
                    restarts + if e.Restarted? then 1 else 0)
    ensures !(e.Advanced? && e.id == id)
  {
  }

  lemma {:induction false} OneTimeIsCovered(log: seq<Event>, c: nat, k: nat, id: string)
    requires Safe(log) && c < k <= |log| && log[c].Created? && log[c].id == id && log[c].about.once
    ensures OneTime(SeenOf(log[..k], id), Times(log, c, k, Tell, id), Restarts(log, c, k))
    decreases k
  {
    hide SeenOf, Says;
    Step(log, k - 1, id);
    assert AllowedAt(log, k - 1);
    if c < k - 1 {
      hide Note, Allowed, OneTime;
      OneTimeIsCovered(log, c, k - 1, id);
      OneTimeMoves(SeenOf(log[..k-1], id), Times(log, c, k - 1, Tell, id), Restarts(log, c, k - 1), log[k-1], id);
    } else {
      assert Times(log, c, c, Tell, id) == 0;
    }
  }

  /** A one-time job reaches its owner once and never runs again, with one more text at most for every restart. */
  lemma OneTimeJobTellsOnce(log: seq<Event>, c: nat, k: nat, id: string)
    requires Safe(log) && c < k <= |log| && log[c].Created? && log[c].id == id && log[c].about.once
    ensures Times(log, c, k, Tell, id) <= 1 + Restarts(log, c, k)
    ensures forall m :: c < m < k ==> !(log[m].Advanced? && log[m].id == id)
  {
    hide Note, SeenOf, Allowed;
    OneTimeIsCovered(log, c, k, id);
    forall m | c < m < k ensures !(log[m].Advanced? && log[m].id == id) {
      OneTimeIsCovered(log, c, m, id);
      assert AllowedAt(log, m);
      OneTimeMoves(SeenOf(log[..m], id), Times(log, c, m, Tell, id), Restarts(log, c, m), log[m], id);
    }
  }

  /** Untrusted is sticky: every report of a job made in a tainted conversation is labelled untrusted. */
  lemma TaintedJobReportsUntrusted(log: seq<Event>, c: nat, k: nat, id: string)
    requires Safe(log) && c < k < |log| && log[c].Created? && log[c].id == id && log[c].about.tainted
    requires log[k].Queued? && log[k].id == id
    ensures log[k].report.untrusted
  {
    CreatedStays(log, c, k, id);
    assert AllowedAt(log, k);
  }

  lemma {:induction false} ToldStays(log: seq<Event>, i: nat, k: nat, id: string)
    requires i < k <= |log| && log[i].Notified? && log[i].id == id
    ensures SeenOf(log[..k], id).told
    decreases k
  {
    Step(log, k - 1, id);
    if i < k - 1 {
      ToldStays(log, i, k - 1, id);
    }
  }

  lemma {:induction false} RunEndStays(log: seq<Event>, i: nat, k: nat, id: string)
    requires i < k <= |log| && log[i].RunEnded? && log[i].id == id
    requires forall m :: i < m < k ==> !log[m].Restarted? && !(log[m].RunEnded? && log[m].id == id)
    ensures SeenOf(log[..k], id).ranAt == Some(log[i].at)
    decreases k
  {
    Step(log, k - 1, id);
    if i < k - 1 {
      RunEndStays(log, i, k - 1, id);
    }
  }

  /** Within one process a model run starts at least thirty seconds after the previous one ended. */
  lemma ModelRunsKeepTheirDistance(log: seq<Event>, i: nat, k: nat, id: string)
    requires Safe(log) && i < k < |log| && log[i].RunEnded? && log[k].RunStarted? && log[i].id == log[k].id == id
    requires forall m :: i < m < k ==> !log[m].Restarted? && !(log[m].RunEnded? && log[m].id == id)
    ensures log[k].at >= log[i].at + 30.0
  {
    RunEndStays(log, i, k, id);
    assert AllowedAt(log, k);
  }

  lemma DelayStep(log: seq<Event>, k: nat, id: string)
    requires k < |log|
    ensures SeenOf(log[..k+1], id).delay == NextDelay(SeenOf(log[..k], id).delay, log[k], id)
  {
    Step(log, k, id);
  }

  lemma {:induction false} DelayInRange(log: seq<Event>, k: nat, id: string)
    requires k <= |log|
    ensures FIRST_RETRY_SECONDS <= SeenOf(log[..k], id).delay <= MAX_RETRY_SECONDS
    decreases k
  {
    if k > 0 {
      hide Note, SeenOf;
      DelayStep(log, k - 1, id);
      DelayInRange(log, k - 1, id);
    }
  }

  lemma {:induction false} DelayStays(log: seq<Event>, i: nat, k: nat, id: string)
    requires i < k <= |log|
    requires forall m :: i < m < k ==> !log[m].Restarted? && !((log[m].Deferred? || log[m].Settled?) && log[m].id == id)
    ensures SeenOf(log[..k], id).delay == SeenOf(log[..i+1], id).delay
    decreases k
  {
    hide Note, SeenOf;
    if i + 1 < k {
      DelayStep(log, k - 1, id);
      DelayInRange(log, k - 1, id);
      DelayStays(log, i, k - 1, id);
    }
  }

  /** Consecutive deferrals wait between thirty seconds and ten minutes, each twice the last until the cap. */
  lemma DeferralsDouble(log: seq<Event>, i: nat, k: nat, id: string)
    requires Safe(log) && i < k < |log| && log[i].Deferred? && log[k].Deferred? && log[i].id == log[k].id == id
    requires forall m :: i < m < k ==> !log[m].Restarted? && !((log[m].Deferred? || log[m].Settled?) && log[m].id == id)
    ensures FIRST_RETRY_SECONDS <= log[i].delay <= MAX_RETRY_SECONDS
    ensures log[k].delay == Min(2.0 * log[i].delay, MAX_RETRY_SECONDS)
  {
    DelayInRange(log, i, id);
    DelayStep(log, i, id);
    DelayStays(log, i, k, id);
    assert AllowedAt(log, i) && AllowedAt(log, k);
  }

  lemma {:induction false} IntervalStays(log: seq<Event>, i: nat, k: nat, id: string)
    requires i < k <= |log| && (log[i].Rescheduled? || log[i].Created?) && log[i].id == id
    requires forall m :: i < m < k ==> !((log[m].Rescheduled? || log[m].Created?) && log[m].id == id)
    ensures SeenOf(log[..k], id).every == log[i].every
    decreases k
  {
    Step(log, k - 1, id);
    if i < k - 1 {
      IntervalStays(log, i, k - 1, id);
    }
  }

  /** Every advance counts from the interval the owner chose last, even one chosen during the run. */
  lemma AdvanceUsesTheLatestInterval(log: seq<Event>, i: nat, k: nat, id: string)
    requires Safe(log) && i < k < |log| && (log[i].Rescheduled? || log[i].Created?) && log[i].id == id
    requires forall m :: i < m < k ==> !((log[m].Rescheduled? || log[m].Created?) && log[m].id == id)
    requires log[k].Advanced? && log[k].id == id
    ensures log[k].next == log[k].at + log[i].every as real
  {
    IntervalStays(log, i, k, id);
    assert AllowedAt(log, k);
  }

  // ------------------------------------------------------------------ what one firing may do

  /** Between a poll and the next one, or the end of the process. */
  predicate SameFiring(log: seq<Event>, i: nat, k: nat) {
    forall m :: i <= m < k <= |log| ==> !log[m].Polled? && !log[m].Restarted?
  }

  lemma FiringStep(s: Seen, e: Event, id: string)
    requires !e.Polled? && !e.Restarted?
    ensures Note(s, e, id).firing.due == s.firing.due && Note(s, e, id).firing.ended == s.firing.ended
    ensures Note(s, e, id).firing.free == s.firing.free
    ensures !(e.RunEnded? && e.id == id) ==> Note(s, e, id).firing.result == s.firing.result
    ensures e.RunEnded? && e.id == id ==> Note(s, e, id).firing.result == Some(e.result)
  {
  }

  lemma {:induction false} PollStays(log: seq<Event>, p: nat, k: nat, id: string)
    requires p < k <= |log| && log[p].Polled? && SameFiring(log, p + 1, k)
    ensures var s, f := SeenOf(log[..p], id), SeenOf(log[..k], id).firing;
            && f.due == (s.about.Some? && s.next <= log[p].at)
            && f.ended == (s.about.Some? && s.about.value.Ended(log[p].at))
            && f.free == (s.about.Some? && (s.until.Some? ==> s.until.value <= log[p].at))
    decreases k
  {
    hide SeenOf;
    Step(log, k - 1, id);
    if p < k - 1 {
      hide Note;
      PollStays(log, p, k - 1, id);
      FiringStep(SeenOf(log[..k-1], id), log[k-1], id);
    }
  }

  lemma {:induction false} ResultStays(log: seq<Event>, i: nat, k: nat, id: string)
    requires Safe(log) && i < k <= |log| && log[i].RunEnded? && log[i].id == id && SameFiring(log, i, k)
    ensures SeenOf(log[..k], id).firing.result == Some(log[i].result)
    decreases k
  {
    hide SeenOf, Note, Says;
    Step(log, k - 1, id);
    FiringStep(SeenOf(log[..k-1], id), log[k-1], id);
    assert AllowedAt(log, k - 1);
    if i < k - 1 {
      ResultStays(log, i, k - 1, id);
    }
  }

  /** Nothing is due or over for a job before the first poll of the process. */
  lemma {:induction false} LastPoll(log: seq<Event>, k: nat, id: string) returns (p: nat)
    requires k <= |log| && (SeenOf(log[..k], id).firing.due || SeenOf(log[..k], id).firing.ended)
    ensures p < k && log[p].Polled? && SameFiring(log, p + 1, k)
    decreases k
  {
    if k == 0 {
      assert false;
    } else {
      Step(log, k - 1, id);
      if log[k-1].Polled? {
        p := k - 1;
      } else {
        p := LastPoll(log, k - 1, id);
      }
    }
  }

  lemma NextMoves(s: Seen, e: Event, id: string)
    ensures Note(s, e, id).next == if Schedules(e, id) then e.next else s.next
  {
  }

  lemma {:induction false} NextStays(log: seq<Event>, i: nat, k: nat, id: string)
    requires i < k <= |log| && Schedules(log[i], id) && forall m :: i < m < k ==> !Schedules(log[m], id)
    ensures SeenOf(log[..k], id).next == log[i].next
    decreases k
  {
    hide SeenOf, Note;
    Step(log, k - 1, id);
    NextMoves(SeenOf(log[..k-1], id), log[k-1], id);
    if i < k - 1 {
      NextStays(log, i, k - 1, id);
    }
  }

  /** What sets the time of a job's next run. */
  predicate Schedules(e: Event, id: string) {
    (e.Created? || e.Rescheduled? || e.Advanced?) && e.id == id
  }

  /** A job acts: the other phone, the recipient's record, the model. */
  predicate Acts(e: Event, id: string) { (e.Sent? || e.Recorded? || e.RunStarted?) && e.id == id }

  /** Nothing is early: a relay is sent and a model run begun only after a poll that found the next run due. */
  lemma NothingIsEarly(log: seq<Event>, k: nat, id: string) returns (p: nat)
    requires Safe(log) && k < |log| && Acts(log[k], id)
    ensures p < k && log[p].Polled? && SameFiring(log, p + 1, k)
    ensures forall j :: 0 <= j < p && Schedules(log[j], id) && (forall m :: j < m < p ==> !Schedules(log[m], id)) ==>
              log[j].next <= log[p].at
  {
    assert AllowedAt(log, k);
    p := LastPoll(log, k, id);
    PollStays(log, p, k, id);
    forall j | 0 <= j < p && Schedules(log[j], id) && forall m :: j < m < p ==> !Schedules(log[m], id)
      ensures log[j].next <= log[p].at
    {
      NextStays(log, j, p, id);
    }
  }

  /**
   Nor is a report, unless it says that a watch ended. And it ends its job if and only if that is one-time or ended.
   */
  lemma ReportsAreTimely(log: seq<Event>, c: nat, k: nat, id: string) returns (p: nat)
    requires Safe(log) && c < k < |log| && log[c].Created? && log[c].id == id && log[k].Queued? && log[k].id == id
    ensures p < k && log[p].Polled? && SameFiring(log, p + 1, k)
    ensures (forall j :: 0 <= j < p && Schedules(log[j], id) && (forall m :: j < m < p ==> !Schedules(log[m], id)) ==>
                           log[j].next <= log[p].at)
            || Under(log[c].about.name, log[k].report.text, WATCH_ENDED)
    ensures c < p ==>
              (log[k].report.after.Cancel? <==>
               log[c].about.once || (log[c].about.kind.Watch? && log[c].about.expiresAt.Some?
                                     && log[c].about.expiresAt.value <= log[p].at))
  {
    CreatedStays(log, c, k, id);
    assert AllowedAt(log, k);
    p := LastPoll(log, k, id);
    PollStays(log, p, k, id);
    if SeenOf(log[..p], id).about.Some? {
      AboutIsFromCreation(log, c, p, k, id);
    }
    if c < p {
      CreatedStays(log, c, p, id);
    }
    forall j | SeenOf(log[..k], id).firing.due && 0 <= j < p && Schedules(log[j], id)
               && forall m :: j < m < p ==> !Schedules(log[m], id)
      ensures log[j].next <= log[p].at
    {
      NextStays(log, j, p, id);
    }
  }

  /**
   The owner is told what the model run came to: a failure, or an answer nobody looked for, as a failed check; a finding
   word for word; and text from outside is labelled.
   */
  lemma ReportTellsTheResult(log: seq<Event>, c: nat, i: nat, k: nat, id: string)
    requires Safe(log) && c < i < k < |log| && log[c].Created? && log[c].id == id && SameFiring(log, i, k)
    requires log[i].RunEnded? && log[i].id == id && log[k].Queued? && log[k].id == id
    ensures var name, result, report := log[c].about.name, log[i].result, log[k].report;
            if result.None? || (!result.value.found && !result.value.checked) then
              report.text == "[job: " + name + "]\n" + "This check failed. I could not complete it."
            else
              && (result.value.found ==> report.text == "[job: " + name + "]\n" + Strip(result.value.text))
              && (result.value.untrusted && (result.value.found || log[c].about.kind.Schedule?) ==> report.untrusted)
  {
    CreatedStays(log, c, i, id);
    CreatedStays(log, c, k, id);
    ResultStays(log, i, k, id);
    assert AllowedAt(log, i) && AllowedAt(log, k);
  }

  lemma {:induction false} UnqueuedSince(log: seq<Event>, i: nat, k: nat, id: string)
    requires Safe(log) && i < k <= |log| && log[i].RunEnded? && log[i].id == id
    requires forall m :: i < m < k ==> !(log[m].Queued? && log[m].id == id)
    ensures SeenOf(log[..k], id).queued.None?
    decreases k
  {
    hide SeenOf, Note, Says;
    Step(log, k - 1, id);
    QueuedMoves(SeenOf(log[..k-1], id), log[k-1], id);
    assert AllowedAt(log, k - 1);
    if i < k - 1 {
      UnqueuedSince(log, i, k - 1, id);
    }
  }

  /** After a model run a job goes on without a report only when it is a watch that looked and found nothing. */
  lemma SilenceMeansNothingFound(log: seq<Event>, c: nat, i: nat, k: nat, id: string)
    requires Safe(log) && c < i < k < |log| && log[c].Created? && log[c].id == id && SameFiring(log, i, k)
    requires log[i].RunEnded? && log[i].id == id && log[k].Advanced? && log[k].id == id
    requires forall m :: i < m < k ==> !(log[m].Queued? && log[m].id == id)
    ensures log[c].about.kind.Watch?
    ensures log[i].result.Some? && !log[i].result.value.found && log[i].result.value.checked
  {
    CreatedStays(log, c, k, id);
    ResultStays(log, i, k, id);
    UnqueuedSince(log, i, k, id);
    assert AllowedAt(log, k);
  }

  lemma {:induction false} NeverRuns(log: seq<Event>, c: nat, k: nat, id: string)
    requires Safe(log) && c < k <= |log| && log[c].Created? && log[c].id == id && log[c].about.verbatim
    ensures SeenOf(log[..k], id).firing.result.None?
    decreases k
  {
    hide SeenOf, Says;
    Step(log, k - 1, id);
    assert AllowedAt(log, k - 1);
    if c < k - 1 {
      CreatedStays(log, c, k - 1, id);
      NeverRuns(log, c, k - 1, id);
    }
  }

  /** A reminder is its prompt, and a relay's report quotes it, word for word. */
  lemma PromptsAreQuoted(log: seq<Event>, c: nat, k: nat, id: string)
    requires Safe(log) && c < k < |log| && log[c].Created? && log[c].id == id && log[k].Queued? && log[k].id == id
    ensures log[c].about.relay ==> log[k].report.text == "Sent to the other phone:\n" + log[c].about.prompt
    ensures log[c].about.verbatim && log[c].about.kind.Schedule? && !log[c].about.relay ==>
              log[k].report.text == log[c].about.prompt
  {
    CreatedStays(log, c, k, id);
    assert AllowedAt(log, k);
    if log[c].about.verbatim && log[c].about.kind.Schedule? && !log[c].about.relay {
      NeverRuns(log, c, k, id);
      if SeenOf(log[..k], id).firing.ended {
        var p := LastPoll(log, k, id);
        PollStays(log, p, k, id);
        AboutIsFromCreation(log, c, p, k, id);
      }
    }
  }

  /** A spent budget stops only what would text its owner for sure: a schedule that is due, or a watch that ended. */
  lemma BudgetStopsOnlySureTexts(log: seq<Event>, c: nat, k: nat, id: string) returns (p: nat)
    requires Safe(log) && c < k < |log| && log[c].Created? && log[c].id == id && log[k] == Limited(id)
    ensures p < k && log[p].Polled? && SameFiring(log, p + 1, k)
    ensures log[c].about.kind.Schedule? || (log[c].about.expiresAt.Some? && log[c].about.expiresAt.value <= log[p].at)
  {
    CreatedStays(log, c, k, id);
    assert AllowedAt(log, k);
    p := LastPoll(log, k, id);
    PollStays(log, p, k, id);
    if SeenOf(log[..k], id).firing.ended {
      AboutIsFromCreation(log, c, p, k, id);
    }
  }

  lemma {:induction false} AboutStays(log: seq<Event>, i: nat, k: nat, id: string)
    requires Safe(log) && i <= k <= |log| && SeenOf(log[..i], id).about.Some?
    ensures SeenOf(log[..k], id).about == SeenOf(log[..i], id).about
    decreases k
  {
    if i < k {
      hide SeenOf, Note, Allowed;
      Step(log, k - 1, id);
      assert AllowedAt(log, k - 1);
      AboutMoves(SeenOf(log[..k-1], id), log[k-1], id);
      AboutStays(log, i, k - 1, id);
    }
  }

  /** What is known of a job at any time is what it was created with. */
  lemma AboutIsFromCreation(log: seq<Event>, c: nat, p: nat, k: nat, id: string)
    requires Safe(log) && c < k <= |log| && p <= k && log[c].Created? && log[c].id == id
    requires SeenOf(log[..p], id).about.Some?
    ensures SeenOf(log[..p], id).about == Some(log[c].about)
  {
    AboutStays(log, p, k, id);
    CreatedStays(log, c, k, id);
  }

  lemma FaultMoves(s: Seen, e: Event, id: string)
    ensures Note(s, e, id).firing.faulted ==>
              || e == Faulted(id)
              || (s.firing.faulted && !e.Polled? && !e.Restarted? && !(e.Deferred? && e.id == id))
  {
  }

  lemma {:induction false} FaultedSince(log: seq<Event>, k: nat, id: string) returns (m: nat)
    requires k <= |log| && SeenOf(log[..k], id).firing.faulted
    ensures m < k && log[m] == Faulted(id) && SameFiring(log, m, k)
    ensures forall j :: m < j < k ==> !(log[j].Deferred? && log[j].id == id)
    decreases k
  {
    hide SeenOf, Note;
    NothingYet(id, 0);
    assert log[..0] == [];
    if k == 0 {
      assert false;
    } else {
      Step(log, k - 1, id);
      FaultMoves(SeenOf(log[..k-1], id), log[k-1], id);
      if log[k-1] == Faulted(id) {
        m := k - 1;
      } else {
        m := FaultedSince(log, k - 1, id);
      }
    }
  }

  /** A job is held off only after something failed for it in the same firing, and once for that. */
  lemma DeferredAfterAFault(log: seq<Event>, k: nat, id: string) returns (m: nat)
    requires Safe(log) && k < |log| && log[k].Deferred? && log[k].id == id
    ensures m < k && log[m] == Faulted(id) && SameFiring(log, m, k)
    ensures forall j :: m < j < k ==> !(log[j].Deferred? && log[j].id == id)
  {
    assert AllowedAt(log, k);
    m := FaultedSince(log, k, id);
  }

  lemma UntilMoves(s: Seen, e: Event, id: string)
    requires !e.Restarted? && !((e.Deferred? || e.Settled?) && e.id == id)
    ensures Note(s, e, id).until == s.until
  {
  }

  lemma {:induction false} UntilStays(log: seq<Event>, i: nat, k: nat, id: string)
    requires i < k <= |log| && log[i].Deferred? && log[i].id == id
    requires forall m :: i < m < k ==> !log[m].Restarted? && !((log[m].Deferred? || log[m].Settled?) && log[m].id == id)
    ensures SeenOf(log[..k], id).until == Some(log[i].at + log[i].delay)
    decreases k
  {
    hide SeenOf;
    Step(log, k - 1, id);
    if i < k - 1 {
      hide Note;
      UntilStays(log, i, k - 1, id);
      UntilMoves(SeenOf(log[..k-1], id), log[k-1], id);
    }
  }

  /** Nothing is tried for a job in a tick that polled before its hold-off was over. */
  lemma HeldOffMeansUntried(log: seq<Event>, i: nat, p: nat, k: nat, id: string)
    requires Safe(log) && i < p < k < |log| && log[i].Deferred? && log[i].id == id
    requires forall m :: i < m < p ==> !log[m].Restarted? && !((log[m].Deferred? || log[m].Settled?) && log[m].id == id)
    requires log[p].Polled? && log[p].at < log[i].at + log[i].delay && SameFiring(log, p + 1, k)
    ensures !(Tries(log[k]) && log[k].id == id)
  {
    UntilStays(log, i, p, id);
    PollStays(log, p, k, id);
    assert AllowedAt(log, k);
  }
}
