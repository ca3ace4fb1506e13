/** The jobs table. Every write is one transaction that may fail as a whole. */
module JobStore {
  import opened Wrappers
  import opened Names
  import opened JobRows

  predicate InOrder(rows: seq<Job>) {
    forall i, k :: 0 <= i < k < |rows| ==> rows[i].nextRunAt <= rows[k].nextRunAt
  }

  predicate Apart(rows: seq<Job>) {
    forall i, k :: 0 <= i < k < |rows| ==> rows[i].about.id != rows[k].about.id
  }

  function Placed(rows: seq<Job>, job: Job, place: nat): (more: seq<Job>)
    requires place <= |rows|
  {
    rows[..place] + [job] + rows[place..]
  }

  lemma PlacedAt(rows: seq<Job>, job: Job, place: nat, i: nat)
    requires place <= |rows| && i <= |rows|
    ensures Placed(rows, job, place)[i] == if i < place then rows[i] else if i == place then job else rows[i-1]
  {
  }

  lemma PlacedInOrder(rows: seq<Job>, job: Job, place: nat)
    requires InOrder(rows) && place <= |rows|
    requires forall i :: 0 <= i < place ==> rows[i].nextRunAt <= job.nextRunAt
    requires place < |rows| ==> job.nextRunAt <= rows[place].nextRunAt
    ensures InOrder(Placed(rows, job, place))
  {
    hide Placed;
    PlacedSize(rows, job, place);
    forall i, k | 0 <= i < k <= |rows|
      ensures Placed(rows, job, place)[i].nextRunAt <= Placed(rows, job, place)[k].nextRunAt
    {
      PlacedAt(rows, job, place, i);
      PlacedAt(rows, job, place, k);
    }
  }

  lemma PlacedSize(rows: seq<Job>, job: Job, place: nat)
    requires place <= |rows|
    ensures |Placed(rows, job, place)| == |rows| + 1
  {
  }

  lemma PlacedApart(rows: seq<Job>, job: Job, place: nat)
    requires Apart(rows) && place <= |rows| && forall i :: 0 <= i < |rows| ==> rows[i].about.id != job.about.id
    ensures Apart(Placed(rows, job, place))
  {
    hide Placed;
    PlacedSize(rows, job, place);
    forall i, k | 0 <= i < k <= |rows|
      ensures Placed(rows, job, place)[i].about.id != Placed(rows, job, place)[k].about.id
    {
      PlacedAt(rows, job, place, i);
      PlacedAt(rows, job, place, k);
    }
  }

  lemma PlacedRows(rows: seq<Job>, job: Job, place: nat)
    requires place <= |rows|
    ensures forall row :: row in Placed(rows, job, place) <==> row in rows || row == job
  {
    assert rows == rows[..place] + rows[place..];
  }

  class Store {
    var jobs: map<string, Job>

    constructor ()
      ensures jobs == map[]
    {
      jobs := map[];
    }

    /** Rows the poll must look at, each once, the longest due first. */
    method DueJobs(now: Time) returns (r: Result<seq<Job>, StoreError>)
      ensures r.Success? ==>
                && (forall i :: 0 <= i < |r.value| ==>
                      && r.value[i].about.id in jobs
                      && jobs[r.value[i].about.id] == r.value[i]
                      && r.value[i].Due(now))
                && Apart(r.value) && InOrder(r.value)
      ensures r.Success? ==>
                forall id :: id in jobs && jobs[id].about.id == id ==>
                  var row := jobs[id];
                  row in r.value <==>
                    if row.cancelledAt.Some? then row.pending.text.Some? && row.pending.delivered
                    else
                      || row.pending.text.Some? || row.nextRunAt <= now
                      || (row.about.kind.Watch? && row.about.expiresAt.Some? && row.about.expiresAt.value <= now)
    {
      var fault: bool := *;
      if fault {
        return Failure(StoreError);
      }
      var due: seq<Job> := [];
      var ids := jobs.Keys;
      while ids != {}
        invariant ids <= jobs.Keys && InOrder(due)
        invariant forall job :: job in due ==>
                    job.about.id in jobs && job.about.id !in ids && jobs[job.about.id] == job && job.Due(now)
        invariant Apart(due)
        invariant forall id :: id in jobs && id !in ids && jobs[id].about.id == id && jobs[id].Due(now) ==>
                    jobs[id] in due
        decreases |ids|
      {
        var id :| id in ids;
        ids := ids - {id};
        if jobs[id].about.id == id && jobs[id].Due(now) {
          due := Insert(due, jobs[id]);
        }
      }
      return Success(due);
    }

    /** Put a row where its time belongs. */
    method Insert(rows: seq<Job>, job: Job) returns (more: seq<Job>)
      requires InOrder(rows) && Apart(rows) && forall i :: 0 <= i < |rows| ==> rows[i].about.id != job.about.id
      ensures InOrder(more) && Apart(more)
      ensures forall row :: row in more <==> row in rows || row == job
    {
      var place := 0;
      while place < |rows| && rows[place].nextRunAt <= job.nextRunAt
        invariant place <= |rows| && forall i :: 0 <= i < place ==> rows[i].nextRunAt <= job.nextRunAt
      {
        place := place + 1;
      }
      more := Placed(rows, job, place);
      PlacedInOrder(rows, job, place);
      PlacedApart(rows, job, place);
      PlacedRows(rows, job, place);
    }

    /** The active row with this id, if any. */
    method FindById(id: string) returns (r: Result<Option<Job>, StoreError>)
      ensures r.Success? ==> r.value == if id in jobs && jobs[id].Active() then Some(jobs[id]) else None
    {
      var fault: bool := *;
      if fault {
        return Failure(StoreError);
      }
      return Success(if id in jobs && jobs[id].Active() then Some(jobs[id]) else None);
    }

    /** The active row an agent means, if any. */
    method FindJob(agent: string, target: Target) returns (r: Result<Option<Job>, StoreError>)
      ensures r.Success? && r.value.Some? ==> r.value.value in jobs.Values && Matches(r.value.value, agent, target)
      ensures r.Success? && r.value.None? ==> forall id :: id in jobs ==> !Matches(jobs[id], agent, target)
      ensures r.Success? && r.value.Some? ==>
                var row := r.value.value;
                && row.cancelledAt.None? && row.about.agent == agent && (target.name.Some? || target.id.Some?)
                && (target.name.Some? ==> Fold(row.about.name) == Fold(target.name.value))
                && (target.id.Some? ==> row.about.id == target.id.value)
      ensures r.Success? && r.value.None? ==>
                forall id :: id in jobs && jobs[id].cancelledAt.None? && jobs[id].about.agent == agent ==>
                  && (target.id.Some? && target.name.None? ==> jobs[id].about.id != target.id.value)
                  && (target.name.Some? && target.id.None? ==> Fold(jobs[id].about.name) != Fold(target.name.value))
    {
      var fault: bool := *;
      if fault {
        return Failure(StoreError);
      }
      if id :| id in jobs && Matches(jobs[id], agent, target) {
        return Success(Some(jobs[id]));
      }
      return Success(None);
    }

    /** The shape of every conditional row update: one row, one guard, rowcount as the answer. */
    method Touch(id: string, admits: Job -> bool, update: Job -> Job) returns (r: Result<bool, StoreError>)
      modifies this
      ensures r.Success? ==> r.value == (id in old(jobs) && admits(old(jobs)[id]))
      ensures jobs == if r == Success(true) then old(jobs)[id := update(old(jobs)[id])] else old(jobs)
    {
      var fault: bool := *;
      if fault {
        return Failure(StoreError);
      }
      if id in jobs && admits(jobs[id]) {
        jobs := jobs[id := update(jobs[id])];
        return Success(true);
      }
      return Success(false);
    }

    /** Store the outbox fields only. False when the job was cancelled meanwhile. */
    method QueueJobReport(id: string, text: string, untrusted: bool, after: After) returns (r: Result<bool, StoreError>)
      modifies this
      ensures r.Success? ==> r.value == (id in old(jobs) && old(jobs)[id].Active())
      ensures jobs ==
                if r == Success(true) then old(jobs)[id := old(jobs)[id].Queued(text, untrusted, after)] else old(jobs)
    {
      r := Touch(id, (j: Job) => j.Active(), (j: Job) => j.Queued(text, untrusted, after));
    }

    /** Cancelling does not block this one: the text already went out. */
    method MarkJobDelivered(id: string) returns (r: Result<bool, StoreError>)
      modifies this
      ensures r.Success? ==> r.value == (id in old(jobs) && old(jobs)[id].pending.text.Some?)
      ensures jobs == if r == Success(true) then old(jobs)[id := old(jobs)[id].Delivered()] else old(jobs)
    {
      r := Touch(id, (j: Job) => j.pending.text.Some?, (j: Job) => j.Delivered());
    }

    /** The next run is counted from the interval in the row, not from the caller's copy. */
    method AdvanceJob(id: string, now: Time) returns (r: Result<bool, StoreError>)
      modifies this
      ensures r.Success? ==> r.value == (id in old(jobs) && old(jobs)[id].Active())
      ensures jobs == if r == Success(true) then old(jobs)[id := old(jobs)[id].Advanced(now)] else old(jobs)
      ensures r == Success(true) ==>
                var was := old(jobs)[id];
                jobs[id] == was.(nextRunAt := now + was.everySeconds as real, lastRunAt := Some(now),
                                 relaySent := false, relayRecorded := false,
                                 pending := Outbox(None, false, None, false))
    {
      r := Touch(id, (j: Job) => j.Active(), (j: Job) => j.Advanced(now));
    }

    method RescheduleJob(id: string, every: int, next: Time) returns (r: Result<bool, StoreError>)
      modifies this
      ensures r.Success? ==> r.value == (id in old(jobs) && old(jobs)[id].Active())
      ensures jobs == if r == Success(true) then old(jobs)[id := old(jobs)[id].Rescheduled(every, next)] else old(jobs)
    {
      r := Touch(id, (j: Job) => j.Active(), (j: Job) => j.Rescheduled(every, next));
    }

    method MarkRelaySent(id: string) returns (r: Result<bool, StoreError>)
      modifies this
      ensures r.Success? ==> r.value == (id in old(jobs) && old(jobs)[id].Active())
      ensures jobs == if r == Success(true) then old(jobs)[id := old(jobs)[id].(relaySent := true)] else old(jobs)
    {
      r := Touch(id, (j: Job) => j.Active(), (j: Job) => j.(relaySent := true));
    }

    method MarkRelayRecorded(id: string) returns (r: Result<bool, StoreError>)
      modifies this
      ensures r.Success? ==> r.value == (id in old(jobs) && old(jobs)[id].Active())
      ensures jobs == if r == Success(true) then old(jobs)[id := old(jobs)[id].(relayRecorded := true)] else old(jobs)
    {
      r := Touch(id, (j: Job) => j.Active(), (j: Job) => j.(relayRecorded := true));
    }

    method ClearJobOutbox(id: string) returns (r: Result<bool, StoreError>)
      modifies this
      ensures r.Success? ==> r.value == (id in old(jobs))
      ensures jobs == if r == Success(true) then old(jobs)[id := old(jobs)[id].Cleared()] else old(jobs)
    {
      r := Touch(id, (j: Job) => true, (j: Job) => j.Cleared());
    }

    /** The first cancel time stays. */
    method CancelJob(id: string, at: Time) returns (r: Result<bool, StoreError>)
      modifies this
      ensures r.Success? ==> r.value == (id in old(jobs) && old(jobs)[id].Active())
      ensures jobs == if r == Success(true) then old(jobs)[id := old(jobs)[id].(cancelledAt := Some(at))] else old(jobs)
    {
      r := Touch(id, (j: Job) => j.Active(), (j: Job) => j.(cancelledAt := Some(at)));
    }

    /** Insert one row. The id must be new and the active name free for that agent. */
    method SaveJob(job: Job) returns (r: Result<(), StoreError>)
      modifies this
      ensures r.Success? ==>
                job.about.id !in old(jobs) && !(job.Active() && NameTaken(old(jobs), job.about.agent, job.about.name))
      ensures jobs == if r.Success? then old(jobs)[job.about.id := job] else old(jobs)
    {
      var fault: bool := *;
      if fault || job.about.id in jobs || (job.Active() && NameTaken(jobs, job.about.agent, job.about.name)) {
        return Failure(StoreError);
      }
      jobs := jobs[job.about.id := job];
      return Success(());
    }
  }
}
