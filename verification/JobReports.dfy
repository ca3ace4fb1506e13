/** What a firing of a job reports, and what the log shows of it afterwards. */
module JobReports {
  import opened Wrappers
  import opened Names
  import opened JobRows
  import opened RunLog

  function FormatJobMessage(name: string, body: string): string { "[job: " + name + "]\n" + body }

  function FormatExpireMessage(name: string): string { FormatJobMessage(name, WATCH_ENDED) }

  function FormatFailMessage(name: string): string { FormatJobMessage(name, CHECK_FAILED) }

  function RelayReport(about: About): Report {
    Report(SENT_ON + about.prompt, about.tainted,
           if about.once then After.Cancel else After.Advance)
  }

  /**
   What a model run leads to: a failure is told, and so is an answer nobody looked for; a quiet watch says nothing.
   */
  function ModelReport(about: About, expired: bool, result: Option<Outcome>): Option<Report> {
    var after := if expired || about.once then After.Cancel else After.Advance;
    if result.None? || (!result.value.found && !result.value.checked) then
      Some(Report(FormatFailMessage(about.name), about.tainted, after))
    else if about.kind.Schedule? || result.value.found then
      var body := if result.value.found then Strip(result.value.text) else NOTHING_FOUND;
      Some(Report(FormatJobMessage(about.name, body), result.value.untrusted || about.tainted, after))
    else if expired then Some(Report(FormatExpireMessage(about.name), about.tainted, After.Cancel))
    else None
  }

  /** What a model run leads to is what the log admits after it. */
  lemma ModelReportSays(s: Seen, about: About, result: Option<Outcome>)
    requires s.about == Some(about) && !about.relay && s.firing.due && s.firing.result == Some(result)
    ensures var report := ModelReport(about, s.firing.ended, result);
            if report.Some? then Says(about, s.firing, report.value) else about.once || MayStayQuiet(s)
  {
  }

  // ------------------------------------------------------------------ since the log was that long

  ghost predicate Reports(log: seq<Event>, since: nat, id: string, report: Report) {
    exists k :: since <= k < |log| && log[k] == Queued(id, report)
  }

  ghost predicate Advances(log: seq<Event>, since: nat, id: string) {
    exists k :: since <= k < |log| && log[k].Advanced? && log[k].id == id
  }

  /** The outbox was emptied, with or without a next run. */
  ghost predicate Ends(log: seq<Event>, since: nat, id: string) {
    exists k :: since <= k < |log| && (log[k].Advanced? || log[k].Emptied?) && log[k].id == id
  }

  ghost predicate HoldsOff(log: seq<Event>, since: nat, id: string) {
    exists k :: since <= k < |log| && log[k].Deferred? && log[k].id == id
  }

  /** The owner may not be texted any more this hour. */
  ghost predicate OutOfBudget(log: seq<Event>, since: nat, id: string) {
    exists k :: since <= k < |log| && log[k] == Limited(id)
  }

  ghost predicate Stopped(log: seq<Event>, id: string) { SeenOf(log, id).cancelled }

  /** The model run that ended at `k` led to what it should. */
  ghost predicate LedTo(log: seq<Event>, k: nat, job: Job, now: Time)
    requires k < |log| && log[k].RunEnded?
  {
    var report := ModelReport(job.about, job.about.Ended(now), log[k].result);
    if report.Some? then Reports(log, k, job.about.id, report.value) else Advances(log, k, job.about.id)
  }

  /** One of the owner's own jobs ran: it was cancelled meanwhile, or reported what it should. */
  ghost predicate Ran(log: seq<Event>, since: nat, job: Job, now: Time) {
    var about := job.about;
    || Stopped(log, about.id)
    || (if about.Ended(now) && job.nextRunAt > now then
          Reports(log, since, about.id, Report(FormatExpireMessage(about.name), about.tainted, After.Cancel))
        else if about.verbatim then
          Reports(log, since, about.id,
                  Report(about.prompt, about.tainted,
                         if about.Ended(now) || about.once then After.Cancel else After.Advance))
        else
          exists k: nat :: since <= k < |log| && log[k].RunEnded? && log[k].id == about.id && LedTo(log, k, job, now))
  }

  /** What one firing of a row read as due achieved, when it raised nothing. */
  ghost predicate Fired(log: seq<Event>, since: nat, job: Job, now: Time) {
    var id := job.about.id;
    || HoldsOff(log, since, id)
    || (if job.pending.text.Some? then Ends(log, since, id)
        else if job.about.relay then Stopped(log, id) || Reports(log, since, id, RelayReport(job.about))
        else OutOfBudget(log, since, id) || Ran(log, since, job, now))
  }

  // ------------------------------------------------------------------ what the log shows stays

  lemma StoppedStays(log: seq<Event>, more: seq<Event>, id: string)
    requires log <= more && Stopped(log, id)
    ensures Stopped(more, id)
    decreases |more|
  {
    if |log| < |more| {
      var before := more[..|more|-1];
      StoppedStays(log, before, id);
      assert before + [more[|more|-1]] == more;
    } else {
      assert log == more;
    }
  }

  lemma ReportsLater(log: seq<Event>, more: seq<Event>, since: nat, later: nat, id: string, report: Report)
    requires log <= more && since <= later && Reports(log, later, id, report)
    ensures Reports(more, since, id, report)
  {
  }

  lemma AdvancesLater(log: seq<Event>, more: seq<Event>, since: nat, later: nat, id: string)
    requires log <= more && since <= later && Advances(log, later, id)
    ensures Advances(more, since, id)
  {
  }

  lemma RanStays(log: seq<Event>, more: seq<Event>, since: nat, job: Job, now: Time)
    requires log <= more && Ran(log, since, job, now)
    ensures Ran(more, since, job, now)
  {
    hide ModelReport, FormatExpireMessage;
    if Stopped(log, job.about.id) {
      StoppedStays(log, more, job.about.id);
    } else if !(job.about.Ended(now) && job.nextRunAt > now) && !job.about.verbatim {
      var k: nat :| since <= k < |log| && log[k].RunEnded? && log[k].id == job.about.id && LedTo(log, k, job, now);
      assert more[k] == log[k] && LedTo(more, k, job, now);
    }
  }

  /** A firing that was seen to the end stays so, and counts from any earlier point. */
  lemma FiredStays(log: seq<Event>, more: seq<Event>, since: nat, later: nat, job: Job, now: Time)
    requires log <= more && since <= later && Fired(log, later, job, now)
    ensures Fired(more, since, job, now)
  {
    hide Ran, Stopped, RelayReport;
    if Ran(log, later, job, now) {
      RanStays(log, more, later, job, now);
      RanEarlier(more, since, later, job, now);
    }
    if Stopped(log, job.about.id) {
      StoppedStays(log, more, job.about.id);
    }
  }

  /**
   What was fired since the poll was fired since the tick began; a row with an outbox came to its end or is held off.
   */
  lemma FiredSince(log: seq<Event>, since: nat, later: nat, rows: seq<Job>, now: Time)
    requires since <= later
    ensures forall k :: 0 <= k < |rows| && Fired(log, later, rows[k], now) ==>
              && Fired(log, since, rows[k], now)
              && (rows[k].pending.text.Some? ==>
                    Ends(log, since, rows[k].about.id) || HoldsOff(log, since, rows[k].about.id))
  {
    hide Ran, Stopped, RelayReport, Ends, HoldsOff;
    forall k | 0 <= k < |rows| && Fired(log, later, rows[k], now)
      ensures Fired(log, since, rows[k], now)
    {
      FiredStays(log, log, since, later, rows[k], now);
    }
  }

  lemma RanEarlier(log: seq<Event>, since: nat, later: nat, job: Job, now: Time)
    requires since <= later && Ran(log, later, job, now)
    ensures Ran(log, since, job, now)
  {
    hide ModelReport, FormatExpireMessage, Stopped;
  }
}
