/** One persisted job row, and what each SQL statement of the store does to it. */
module JobRows {
  import opened Names
  import opened Wrappers

  type Time = real

  datatype Kind = Schedule | Watch

  datatype After = Advance | Cancel

  /** The columns no statement ever updates. */
  datatype About = About(
    id: string,
    agent: string,
    kind: Kind,
    name: string,
    prompt: string,
    ttlSeconds: Option<int>,
    createdAt: Time,
    expiresAt: Option<Time>,
    once: bool,
    verbatim: bool,
    relay: bool,
    tainted: bool)
  {
    /** A watch whose time is up. */
    predicate Ended(now: Time) { kind.Watch? && expiresAt.Some? && expiresAt.value <= now }
  }

  /** The report waiting to reach the owner: the four `pending` columns. */
  datatype Outbox = Outbox(text: Option<string>, untrusted: bool, after: Option<After>, delivered: bool)

  const EMPTY_OUTBOX := Outbox(None, false, None, false)

  datatype Job = Job(
    about: About,
    everySeconds: int,
    nextRunAt: Time,
    lastRunAt: Option<Time>,
    cancelledAt: Option<Time>,
    relaySent: bool,
    relayRecorded: bool,
    pending: Outbox)
  {
    predicate Active() { cancelledAt.None? }

    function Delivered(): Job { this.(pending := pending.(delivered := true)) }

    function Queued(text: string, untrusted: bool, after: After): Job {
      this.(pending := Outbox(Some(text), untrusted, Some(after), false))
    }

    function Cleared(): Job {
      this.(pending := EMPTY_OUTBOX)
    }

    function Advanced(now: Time): Job {
      this.(pending := EMPTY_OUTBOX, nextRunAt := now + everySeconds as real, lastRunAt := Some(now),
            relaySent := false, relayRecorded := false)
    }

    function Rescheduled(every: int, next: Time): Job {
      this.(everySeconds := every, nextRunAt := next)
    }

    /** The row filter of the poll. */
    predicate Due(now: Time) {
      || (Active() && (|| pending.text.Some?
                       || nextRunAt <= now
                       || about.Ended(now)))
      || (pending.text.Some? && pending.delivered)
    }
  }

  /** How a person or a model points at a job: by name, by id, or by both. */
  datatype Target = Target(name: Option<string>, id: Option<string>)

  predicate Matches(job: Job, agent: string, target: Target) {
    && job.Active() && job.about.agent == agent
    && (target.name.Some? || target.id.Some?)
    && (target.name.Some? ==> Fold(target.name.value) == Fold(job.about.name))
    && (target.id.Some? ==> target.id.value == job.about.id)
  }

  const MIN_EVERY_SECONDS := 60

  /** The unique index on active names. */
  predicate NameTaken(jobs: map<string, Job>, agent: string, name: string) {
    exists id :: id in jobs && jobs[id].Active() && jobs[id].about.agent == agent
                 && Fold(jobs[id].about.name) == Fold(name)
  }

  predicate SameActiveName(a: Job, b: Job) {
    a.Active() && b.Active() && a.about.agent == b.about.agent && Fold(a.about.name) == Fold(b.about.name)
  }

  /** The primary key and the unique index: no two rows share an id, no two active rows of one agent a name. */
  ghost predicate WellFormed(jobs: map<string, Job>) {
    && (forall id :: id in jobs ==> jobs[id].about.id == id)
    && (forall a, b :: a in jobs && b in jobs && SameActiveName(jobs[a], jobs[b]) ==> a == b)
  }
}
