/**
 The check a job call passes before it is staged, the handlers that run it after the yes, and what the first
 says about the second. The check is a symbolic run of the commit: it reads the table as it is now and the calls
 staged so far, and a call it lets through must not be refused later.
 */
module Staging {
  import opened Wrappers
  import opened Names
  import opened JobRows
  import opened JobStore

  datatype JobCreate = JobCreate(
    kind: Kind,
    name: string,
    prompt: string,
    everySeconds: int,
    ttlSeconds: Option<int>,
    startAt: Option<string>,
    inSeconds: Option<int>,
    once: bool,
    verbatim: bool)

  /** A parsed call. Calls that touch no job row are all alike here. */
  datatype Call =
    | CreateJob(spec: JobCreate)
    | CancelJob(target: Target)
    | RescheduleJob(target: Target, everySeconds: int)
    | RelayLater(message: JobCreate, explicit: bool)
    | OtherCall

  datatype Refusal = AlreadyExists | NoMatchingJob | LongerThanTtl

  /** Done, under a name when a row was stored; refused for a reason the check should have seen; or broken. */
  datatype Outcome = Done(stored: Option<string>) | Refused(why: Refusal) | Broke

  type Rows = map<string, Job>

  function Named(name: string): Target { Target(Some(name), None) }

  // ------------------------------------------------------------------ the check

  /** An earlier cancel in the proposal already takes this job. Either its id or its name is enough. */
  predicate Covers(call: Call, job: Job) {
    && call.CancelJob?
    && (|| call.target.id == Some(job.about.id)
        || (call.target.name.Some? && Fold(call.target.name.value) == Fold(job.about.name)))
  }

  predicate CancelCovers(job: Job, staged: seq<Call>) {
    exists i :: 0 <= i < |staged| && Covers(staged[i], job)
  }

  predicate CreatesName(call: Call, name: string) {
    call.CreateJob? && Fold(call.spec.name) == Fold(name)
  }

  /** What it takes to be staged. */
  ghost predicate Accepts(rows: Rows, agent: string, call: Call, staged: seq<Call>) {
    match call
    case CreateJob(spec) =>
      && (forall id :: id in rows && Matches(rows[id], agent, Named(spec.name)) ==> CancelCovers(rows[id], staged))
      && (forall i :: 0 <= i < |staged| ==> !CreatesName(staged[i], spec.name))
    case CancelJob(target) =>
      exists id :: id in rows && Matches(rows[id], agent, target) && !CancelCovers(rows[id], staged)
    case RescheduleJob(target, every) =>
      exists id :: && id in rows && Matches(rows[id], agent, target) && !CancelCovers(rows[id], staged)
                   && (rows[id].about.ttlSeconds.Some? ==> every <= rows[id].about.ttlSeconds.value)
    case RelayLater(_, _) => true
    case OtherCall => true
  }

  method IsCovered(job: Job, staged: seq<Call>) returns (covered: bool)
    ensures covered == CancelCovers(job, staged)
    ensures covered <==>
              exists i :: && 0 <= i < |staged| && staged[i].CancelJob?
                          && (|| staged[i].target.id == Some(job.about.id)
                              || (staged[i].target.name.Some?
                                  && Fold(staged[i].target.name.value) == Fold(job.about.name)))
  {
    for i := 0 to |staged|
      invariant forall k :: 0 <= k < i ==> !Covers(staged[k], job)
    {
      if Covers(staged[i], job) {
        return true;
      }
    }
    return false;
  }

  lemma OneMatch(rows: Rows, agent: string, target: Target, a: string, b: string)
    requires WellFormed(rows) && a in rows && b in rows
    requires Matches(rows[a], agent, target) && Matches(rows[b], agent, target)
    ensures a == b
  {
    assert target.name.Some? ==> SameActiveName(rows[a], rows[b]);
  }

  /** Why a call could not be run as the table stands, given what is staged before it. */
  method StagingError(store: Store, agent: string, call: Call, staged: seq<Call>)
    returns (r: Result<Option<Refusal>, StoreError>)
    requires WellFormed(store.jobs)
    ensures r.Success? ==> (r.value.None? <==> Accepts(store.jobs, agent, call, staged))
  {
    if call.RelayLater? || call.OtherCall? {
      return Success(None);
    }
    var target := if call.CreateJob? then Named(call.spec.name) else call.target;
    var found := store.FindJob(agent, target);
    if found.Failure? {
      return Failure(StoreError);
    }
    var covered := false;
    if found.value.Some? {
      covered := IsCovered(found.value.value, staged);
      ghost var id := found.value.value.about.id;
      forall other | other in store.jobs && Matches(store.jobs[other], agent, target) ensures other == id {
        OneMatch(store.jobs, agent, target, other, id);
      }
    }
    if call.CreateJob? {
      if found.value.Some? && !covered {
        return Success(Some(AlreadyExists));
      }
      for i := 0 to |staged|
        invariant forall k :: 0 <= k < i ==> !CreatesName(staged[k], call.spec.name)
      {
        if CreatesName(staged[i], call.spec.name) {
          return Success(Some(AlreadyExists));
        }
      }
      return Success(None);
    }
    if found.value.None? || covered {
      return Success(Some(NoMatchingJob));
    }
    var job := found.value.value;
    if call.RescheduleJob? && job.about.ttlSeconds.Some? && call.everySeconds > job.about.ttlSeconds.value {
      return Success(Some(LongerThanTtl));
    }
    return Success(None);
  }

  // ------------------------------------------------------------------ the handlers

  function NewRow(id: string, agent: string, spec: JobCreate, now: Time, first: Time, relay: bool, tainted: bool): Job {
    var origin := if spec.startAt.Some? || spec.inSeconds.Some? then first else now;
    var expires := if spec.ttlSeconds.Some? then Some(origin + spec.ttlSeconds.value as real) else None;
    Job(About(id, agent, spec.kind, spec.name, spec.prompt, spec.ttlSeconds, now, expires, spec.once, spec.verbatim,
              relay, tainted),
        spec.everySeconds, first, None, None, false, false, EMPTY_OUTBOX)
  }

  /** One new row under a free name. */
  ghost predicate Inserted(rows: Rows, after: Rows, agent: string, spec: JobCreate, relay: bool, now: Time,
                           tainted: bool) {
    exists id, first ::
      && id !in rows && after == rows[id := NewRow(id, agent, spec, now, first, relay, tainted)]
      && !NameTaken(rows, agent, spec.name)
      && (spec.inSeconds.Some? ==> first == now + spec.inSeconds.value as real)
      && (spec.inSeconds.None? && spec.startAt.None? ==> first == now + spec.everySeconds as real)
  }

  ghost predicate CancelledOne(rows: Rows, after: Rows, agent: string, target: Target, now: Time) {
    exists id :: id in rows && Matches(rows[id], agent, target)
                 && after == rows[id := rows[id].(cancelledAt := Some(now))]
  }

  ghost predicate RescheduledOne(rows: Rows, after: Rows, agent: string, target: Target, every: int, now: Time) {
    exists id :: && id in rows && Matches(rows[id], agent, target)
                 && (rows[id].about.ttlSeconds.Some? ==> every <= rows[id].about.ttlSeconds.value)
                 && after == rows[id := rows[id].Rescheduled(every, now + every as real)]
  }

  function Numbered(name: string, index: nat): string
    requires 2 <= index < 100
  {
    name + " " + (if index < 10 then ['0' + index as char]
                  else ['0' + (index / 10) as char, '0' + (index % 10) as char])
  }

  /** Different numbers make different names. */
  lemma NumbersAreApart(name: string, i: nat, k: nat)
    requires 2 <= i < k < 100
    ensures Numbered(name, i) != Numbered(name, k)
  {
    var a, b := Numbered(name, i), Numbered(name, k);
    if |a| == |b| {
      assert a[|a|-1] == '0' + (i % 10) as char && b[|b|-1] == '0' + (k % 10) as char;
      assert k >= 10 ==> a[|name| + 1] == '0' + (i / 10) as char && b[|name| + 1] == '0' + (k / 10) as char;
    }
  }

  /** The requested name, or for the default name, when it is taken, the first free numbered one. */
  ghost predicate RelayNamed(rows: Rows, agent: string, requested: string, explicit: bool, name: string) {
    || name == requested
    || (&& !explicit && NameTaken(rows, agent, requested)
        && exists n: nat :: NumberedFirst(rows, agent, requested, n, name))
  }

  ghost predicate NumberedFirst(rows: Rows, agent: string, requested: string, n: nat, name: string) {
    && 2 <= n < 100 && name == Numbered(requested, n)
    && forall m :: 2 <= m < n ==> NameTaken(rows, agent, Numbered(requested, m))
  }

  ghost predicate NoRelayName(rows: Rows, agent: string, requested: string, explicit: bool) {
    && NameTaken(rows, agent, requested)
    && (explicit || forall m :: 2 <= m < 100 ==> NameTaken(rows, agent, Numbered(requested, m)))
  }

  /** What a handler does to the table, and what it answers. */
  ghost predicate Ran(rows: Rows, agent: string, call: Call, now: Time, tainted: bool, after: Rows, outcome: Outcome) {
    match outcome
    case Broke => after == rows
    case Refused(why) => after == rows && Deserved(rows, agent, call, why)
    case Done(stored) =>
      match call
      case CreateJob(spec) => stored == Some(spec.name) && Inserted(rows, after, agent, spec, false, now, tainted)
      case CancelJob(target) => stored == None && CancelledOne(rows, after, agent, target, now)
      case RescheduleJob(target, every) => stored == None && RescheduledOne(rows, after, agent, target, every, now)
      case RelayLater(message, explicit) =>
        && stored.Some? && RelayNamed(rows, agent, message.name, explicit, stored.value)
        && Inserted(rows, after, agent, message.(name := stored.value), true, now, tainted)
      case OtherCall => stored == None && after == rows
  }

  ghost predicate Deserved(rows: Rows, agent: string, call: Call, why: Refusal) {
    match why
    case AlreadyExists =>
      || (call.CreateJob? && exists id :: id in rows && Matches(rows[id], agent, Named(call.spec.name)))
      || (call.RelayLater? && NoRelayName(rows, agent, call.message.name, call.explicit))
    case NoMatchingJob =>
      && (call.CancelJob? || call.RescheduleJob?)
      && forall id :: id in rows ==> !Matches(rows[id], agent, call.target)
    case LongerThanTtl =>
      && call.RescheduleJob?
      && exists id :: && id in rows && Matches(rows[id], agent, call.target)
                      && rows[id].about.ttlSeconds.Some? && call.everySeconds > rows[id].about.ttlSeconds.value
  }

  /** When a new job first runs. None when the household clock cannot show that time. */
  method FirstRun(spec: JobCreate, now: Time) returns (first: Option<Time>)
    ensures first.Some? && spec.inSeconds.Some? ==> first.value == now + spec.inSeconds.value as real
    ensures first.Some? && spec.inSeconds.None? && spec.startAt.None? ==> first.value == now + spec.everySeconds as real
  {
    var resolved: Time, representable: bool := *, *;
    if !representable {
      return None;
    }
    if spec.inSeconds.Some? {
      return Some(now + spec.inSeconds.value as real);
    }
    return Some(if spec.startAt.Some? then resolved else now + spec.everySeconds as real);
  }

  method Create(store: Store, agent: string, spec: JobCreate, now: Time, tainted: bool) returns (outcome: Outcome)
    requires WellFormed(store.jobs)
    modifies store
    ensures Ran(old(store.jobs), agent, CreateJob(spec), now, tainted, store.jobs, outcome)
  {
    var found := store.FindJob(agent, Named(spec.name));
    if found.Failure? {
      return Broke;
    }
    if found.value.Some? {
      return Refused(AlreadyExists);
    }
    var first := FirstRun(spec, now);
    if first.None? {
      return Broke;
    }
    // The random id may be taken, and then another one is tried.
    for tries := 0 to 5
      invariant store.jobs == old(store.jobs)
    {
      var id: string := *;
      var row := NewRow(id, agent, spec, now, first.value, false, tainted);
      var saved := store.SaveJob(row);
      if saved.Success? {
        return Done(Some(spec.name));
      }
      found := store.FindJob(agent, Named(spec.name));
      if found.Failure? {
        return Broke;
      }
      if found.value.Some? {
        return Refused(AlreadyExists);
      }
    }
    return Broke;
  }

  method Cancel(store: Store, agent: string, target: Target, now: Time) returns (outcome: Outcome)
    requires WellFormed(store.jobs)
    modifies store
    ensures Ran(old(store.jobs), agent, CancelJob(target), now, false, store.jobs, outcome)
  {
    var found := store.FindJob(agent, target);
    if found.Failure? {
      return Broke;
    }
    if found.value.None? {
      return Refused(NoMatchingJob);
    }
    var cancelled := store.CancelJob(found.value.value.about.id, now);
    return if cancelled.Success? then Done(None) else Broke;
  }

  method Reschedule(store: Store, agent: string, target: Target, every: int, now: Time) returns (outcome: Outcome)
    requires WellFormed(store.jobs)
    modifies store
    ensures Ran(old(store.jobs), agent, RescheduleJob(target, every), now, false, store.jobs, outcome)
  {
    var found := store.FindJob(agent, target);
    if found.Failure? {
      return Broke;
    }
    if found.value.None? {
      return Refused(NoMatchingJob);
    }
    var job := found.value.value;
    if job.about.ttlSeconds.Some? && every > job.about.ttlSeconds.value {
      return Refused(LongerThanTtl);
    }
    var moved := store.RescheduleJob(job.about.id, every, now + every as real);
    if moved.Failure? {
      return Broke;
    }
    if !moved.value {
      return Refused(NoMatchingJob);
    }
    return Done(None);
  }

  /** The requested name when it is free, else for the default name the first free numbered one. */
  method RelayName(store: Store, agent: string, requested: string, explicit: bool)
    returns (r: Result<Option<string>, StoreError>)
    ensures r.Success? && r.value.Some? ==>
              && !NameTaken(store.jobs, agent, r.value.value)
              && RelayNamed(store.jobs, agent, requested, explicit, r.value.value)
    ensures r.Success? && r.value.None? ==> NoRelayName(store.jobs, agent, requested, explicit)
  {
    var found := store.FindJob(agent, Named(requested));
    if found.Failure? {
      return Failure(StoreError);
    }
    if found.value.None? {
      return Success(Some(requested));
    }
    if explicit {
      return Success(None);
    }
    for index := 2 to 100
      invariant forall m :: 2 <= m < index ==> NameTaken(store.jobs, agent, Numbered(requested, m))
    {
      var candidate := Numbered(requested, index);
      var taken := store.FindJob(agent, Named(candidate));
      if taken.Failure? {
        return Failure(StoreError);
      }
      if taken.value.None? {
        assert NumberedFirst(store.jobs, agent, requested, index, candidate);
        return Success(Some(candidate));
      }
    }
    return Success(None);
  }

  method StoreRelay(store: Store, agent: string, message: JobCreate, explicit: bool, now: Time, tainted: bool)
    returns (outcome: Outcome)
    requires WellFormed(store.jobs)
    modifies store
    ensures Ran(old(store.jobs), agent, RelayLater(message, explicit), now, tainted, store.jobs, outcome)
  {
    var first := FirstRun(message, now);
    if first.None? {
      return Broke;
    }
    var name := RelayName(store, agent, message.name, explicit);
    if name.Failure? {
      return Broke;
    }
    if name.value.None? {
      return Refused(AlreadyExists);
    }
    var id: string := *;
    var saved := store.SaveJob(NewRow(id, agent, message.(name := name.value.value), now, first.value, true, tainted));
    return if saved.Success? then Done(name.value) else Broke;
  }
}
