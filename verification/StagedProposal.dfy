/** The staging check predicts the commit: a turn that stages calls, a yes, and what the handlers then answer. */
module StagedProposal {
  import opened Wrappers
  import opened Names
  import opened JobRows
  import opened JobStore
  import opened Staging

  ghost predicate Within(a: Rows, b: Rows) {
    forall id :: id in a ==> id in b && b[id] == a[id]
  }

  /** What the turn left: calls, and for each the table the check saw. Only new reminders came in between. */
  ghost predicate Checked(staged: seq<Call>, seen: seq<Rows>, agent: string, rows: Rows) {
    && WellFormed(rows) && |seen| == |staged|
    && (forall k :: 0 <= k < |staged| ==> Within(seen[k], rows) && Accepts(seen[k], agent, staged[k], staged[..k]))
    && (forall i, k :: 0 <= i <= k < |staged| ==> Within(seen[i], seen[k]))
  }

  lemma CheckedOneMore(staged: seq<Call>, seen: seq<Rows>, agent: string, rows: Rows, call: Call)
    requires Checked(staged, seen, agent, rows) && Accepts(rows, agent, call, staged)
    ensures Checked(staged + [call], seen + [rows], agent, rows)
  {
    var more := staged + [call];
    forall k | 0 <= k < |more| ensures Accepts((seen + [rows])[k], agent, more[k], more[..k]) {
      assert more[..k] == staged[..k];
      assert staged[..|staged|] == staged;
    }
  }

  lemma CheckedMoreRows(staged: seq<Call>, seen: seq<Rows>, agent: string, rows: Rows, more: Rows)
    requires Checked(staged, seen, agent, rows) && Within(rows, more) && WellFormed(more)
    ensures Checked(staged, seen, agent, more)
  {
  }

  lemma TakenIsMatched(rows: Rows, agent: string, name: string)
    ensures NameTaken(rows, agent, name) <==> exists id :: id in rows && Matches(rows[id], agent, Named(name))
  {
  }

  /** A reminder saved in the same turn, after the check, has the name. */
  ghost predicate SavedSince(seen: Rows, rows: Rows, agent: string, name: string) {
    exists id :: id in rows && id !in seen && Matches(rows[id], agent, Named(name))
  }

  /** A scheduled relay that came first took the name. The check only reads a relay's arguments. */
  ghost predicate RelayTook(staged: seq<Call>, outcomes: seq<Outcome>, k: nat, name: string)
    requires k <= |staged| && k <= |outcomes|
  {
    exists j :: 0 <= j < k && staged[j].RelayLater? && outcomes[j].Done?
                && outcomes[j].stored.Some? && Fold(outcomes[j].stored.value) == Fold(name)
  }

  ghost predicate NameGone(staged: seq<Call>, seen: seq<Rows>, rows: Rows, agent: string, outcomes: seq<Outcome>,
                           k: nat)
    requires k < |staged| && k < |seen| && k <= |outcomes| && staged[k].CreateJob?
  {
    SavedSince(seen[k], rows, agent, staged[k].spec.name) || RelayTook(staged, outcomes, k, staged[k].spec.name)
  }

  /** What the check promised about one call. */
  ghost predicate Predicted(staged: seq<Call>, seen: seq<Rows>, rows: Rows, agent: string, outcomes: seq<Outcome>,
                            k: nat)
    requires k < |staged| && k < |seen| && k < |outcomes|
  {
    && (staged[k].CancelJob? || staged[k].RescheduleJob? ==> !outcomes[k].Refused?)
    && (staged[k].CreateJob? && outcomes[k].Refused? ==> NameGone(staged, seen, rows, agent, outcomes, k))
    && (staged[k].CreateJob? && outcomes[k].Done? ==> !NameGone(staged, seen, rows, agent, outcomes, k))
  }

  // ------------------------------------------------------------------ half way through the commit

  /** An old row is as it was unless a call so far cancelled it, or only its times moved. */
  ghost predicate OldRow(was: Job, later: Job, agent: string, done: seq<Call>) {
    && later.about == was.about
    && (was.about.agent == agent ==> (later.Active() <==> was.Active() && !CancelCovers(was, done)))
  }

  ghost predicate MadeBy(call: Call, outcome: Outcome, name: string) {
    && (call.CreateJob? || call.RelayLater?)
    && outcome == Done(Some(name)) && (call.CreateJob? ==> call.spec.name == name)
  }

  ghost predicate OldRows(rows: Rows, current: Rows, agent: string, done: seq<Call>) {
    forall id :: id in rows ==> id in current && OldRow(rows[id], current[id], agent, done)
  }

  /** Every new active row was made by a call that ran, under the name it then answered. */
  ghost predicate NewRows(rows: Rows, current: Rows, agent: string, staged: seq<Call>, outcomes: seq<Outcome>)
    requires |outcomes| <= |staged|
  {
    forall id :: id in current && id !in rows && current[id].Active() && current[id].about.agent == agent ==>
      exists j :: 0 <= j < |outcomes| && MadeBy(staged[j], outcomes[j], current[id].about.name)
  }

  /** Every relay that was stored is there, and active. */
  ghost predicate RelayRows(rows: Rows, current: Rows, agent: string, staged: seq<Call>, outcomes: seq<Outcome>)
    requires |outcomes| <= |staged|
  {
    forall j :: 0 <= j < |outcomes| && staged[j].RelayLater? && outcomes[j].Done? ==>
      outcomes[j].stored.Some? && NewlyHeld(rows, current, agent, outcomes[j].stored.value)
  }

  ghost predicate NewlyHeld(rows: Rows, current: Rows, agent: string, name: string) {
    exists id :: id in current && id !in rows && Matches(current[id], agent, Named(name))
  }

  ghost predicate Midway(rows: Rows, current: Rows, agent: string, staged: seq<Call>, outcomes: seq<Outcome>) {
    && WellFormed(current) && |outcomes| <= |staged|
    && OldRows(rows, current, agent, staged[..|outcomes|])
    && NewRows(rows, current, agent, staged, outcomes)
    && RelayRows(rows, current, agent, staged, outcomes)
  }

  lemma CoveredByMore(job: Job, staged: seq<Call>, k: nat)
    requires k < |staged|
    ensures CancelCovers(job, staged[..k+1]) == (CancelCovers(job, staged[..k]) || Covers(staged[k], job))
  {
    var more := staged[..k+1];
    assert forall i :: 0 <= i < k ==> more[i] == staged[..k][i];
    assert more[k] == staged[k];
  }

  /** The row that carries the same name or id as a cancel's target is the row the cancel found. */
  lemma CoveredIsFound(rows: Rows, seen: Rows, agent: string, target: Target, f: string, id: string)
    requires WellFormed(rows) && Within(seen, rows) && f in seen && Matches(seen[f], agent, target)
    requires id in rows && rows[id].Active() && rows[id].about.agent == agent && Covers(CancelJob(target), rows[id])
    ensures id == f
  {
    assert f in rows && rows[f] == seen[f];
    assert target.id == Some(rows[id].about.id) || SameActiveName(rows[id], rows[f]);
  }

  /** Rows that are new keep their name and stay active. */
  ghost predicate NewStay(rows: Rows, current: Rows, after: Rows) {
    && (forall id :: id in after && id !in rows ==> id in current)
    && (forall id :: id in current && id !in rows ==>
          id in after && after[id].about == current[id].about && after[id].Active() == current[id].Active())
  }

  lemma MadeRowsStay(rows: Rows, current: Rows, agent: string, staged: seq<Call>, outcomes: seq<Outcome>, after: Rows,
                     outcome: Outcome)
    requires |outcomes| < |staged| && NewStay(rows, current, after)
    requires NewRows(rows, current, agent, staged, outcomes)
    ensures NewRows(rows, after, agent, staged, outcomes + [outcome])
  {
    var more := outcomes + [outcome];
    forall id | id in after && id !in rows && after[id].Active() && after[id].about.agent == agent
      ensures exists j :: 0 <= j < |more| && MadeBy(staged[j], more[j], after[id].about.name)
    {
      var j :| 0 <= j < |outcomes| && MadeBy(staged[j], outcomes[j], current[id].about.name);
      assert MadeBy(staged[j], more[j], after[id].about.name);
    }
  }

  lemma RelayRowsStay(rows: Rows, current: Rows, agent: string, staged: seq<Call>, outcomes: seq<Outcome>,
                      after: Rows, outcome: Outcome)
    requires |outcomes| < |staged| && NewStay(rows, current, after)
    requires RelayRows(rows, current, agent, staged, outcomes)
    requires staged[|outcomes|].RelayLater? && outcome.Done? ==>
               outcome.stored.Some? && NewlyHeld(rows, after, agent, outcome.stored.value)
    ensures RelayRows(rows, after, agent, staged, outcomes + [outcome])
  {
    var more := outcomes + [outcome];
    forall j | 0 <= j < |outcomes| && staged[j].RelayLater? && more[j].Done?
      ensures more[j].stored.Some? && NewlyHeld(rows, after, agent, more[j].stored.value)
    {
      assert outcomes[j] == more[j];
      var id :| id in current && id !in rows && Matches(current[id], agent, Named(outcomes[j].stored.value));
      assert Matches(after[id], agent, Named(more[j].stored.value));
    }
  }

  lemma OldRowsStay(rows: Rows, current: Rows, agent: string, staged: seq<Call>, k: nat, after: Rows)
    requires k < |staged| && !staged[k].CancelJob? && OldRows(rows, current, agent, staged[..k])
    requires forall id :: id in current ==>
               id in after && after[id].about == current[id].about && after[id].Active() == current[id].Active()
    ensures OldRows(rows, after, agent, staged[..k+1])
  {
    forall id | id in rows ensures OldRow(rows[id], after[id], agent, staged[..k+1]) {
      CoveredByMore(rows[id], staged, k);
      assert OldRow(rows[id], current[id], agent, staged[..k]);
    }
  }

  lemma OldRowsCancelled(rows: Rows, seen: Rows, current: Rows, agent: string, staged: seq<Call>, k: nat, f: string,
                         now: Time)
    requires WellFormed(rows) && Within(seen, rows) && k < |staged| && staged[k].CancelJob?
    requires f in seen && Matches(seen[f], agent, staged[k].target)
    requires OldRows(rows, current, agent, staged[..k])
    ensures OldRows(rows, current[f := current[f].(cancelledAt := Some(now))], agent, staged[..k+1])
  {
    var after := current[f := current[f].(cancelledAt := Some(now))];
    forall id | id in rows ensures OldRow(rows[id], after[id], agent, staged[..k+1]) {
      CoveredByMore(rows[id], staged, k);
      assert OldRow(rows[id], current[id], agent, staged[..k]);
      if rows[id].about.agent == agent && rows[id].Active() && Covers(staged[k], rows[id]) {
        CoveredIsFound(rows, seen, agent, staged[k].target, f, id);
      }
      assert f == id ==> Covers(staged[k], rows[id]);
    }
  }

  /** A call that changes no row, or moves only the times of one, leaves everything the check relied on. */
  lemma TimesMove(rows: Rows, current: Rows, agent: string, staged: seq<Call>, outcomes: seq<Outcome>, after: Rows,
                  outcome: Outcome)
    requires Midway(rows, current, agent, staged, outcomes) && |outcomes| < |staged| && WellFormed(after)
    requires forall id :: id in after ==> id in current
    requires forall id :: id in current ==>
               id in after && after[id].about == current[id].about && after[id].Active() == current[id].Active()
    requires !staged[|outcomes|].CancelJob? && (staged[|outcomes|].RelayLater? ==> !outcome.Done?)
    ensures Midway(rows, after, agent, staged, outcomes + [outcome])
  {
    OldRowsStay(rows, current, agent, staged, |outcomes|, after);
    MadeRowsStay(rows, current, agent, staged, outcomes, after, outcome);
    RelayRowsStay(rows, current, agent, staged, outcomes, after, outcome);
  }

  /** What the check found is still there when the call's turn comes. */
  lemma FoundAgain(rows: Rows, seen: Rows, current: Rows, agent: string, target: Target, done: seq<Call>, f: string)
    requires Within(seen, rows) && OldRows(rows, current, agent, done)
    requires f in seen && Matches(seen[f], agent, target) && !CancelCovers(seen[f], done)
    ensures f in rows && f in current && Matches(current[f], agent, target) && current[f].about == seen[f].about
  {
    assert f in rows && rows[f] == seen[f] && OldRow(rows[f], current[f], agent, done);
  }

  /** The row a cancel hits is the one the check found, and no other old row is covered by it. */
  lemma CancelMoves(rows: Rows, seen: Rows, current: Rows, agent: string, staged: seq<Call>, outcomes: seq<Outcome>,
                    now: Time, after: Rows, outcome: Outcome)
    requires Midway(rows, current, agent, staged, outcomes) && |outcomes| < |staged| && WellFormed(after)
    requires WellFormed(rows) && Within(seen, rows) && staged[|outcomes|].CancelJob?
    requires Accepts(seen, agent, staged[|outcomes|], staged[..|outcomes|])
    requires !outcome.Broke? && exists tainted :: Ran(current, agent, staged[|outcomes|], now, tainted, after, outcome)
    ensures outcome.Done? && Midway(rows, after, agent, staged, outcomes + [outcome])
  {
    hide OldRows, NewRows, RelayRows, WellFormed, Matches, CancelCovers, Within;
    var k, target := |outcomes|, staged[|outcomes|].target;
    var f :| f in seen && Matches(seen[f], agent, target) && !CancelCovers(seen[f], staged[..k]);
    FoundAgain(rows, seen, current, agent, target, staged[..k], f);
    assert CancelledOne(current, after, agent, target, now);
    var id :| id in current && Matches(current[id], agent, target)
              && after == current[id := current[id].(cancelledAt := Some(now))];
    OneMatch(current, agent, target, id, f);
    OldRowsCancelled(rows, seen, current, agent, staged, k, f, now);
    assert NewStay(rows, current, after);
    MadeRowsStay(rows, current, agent, staged, outcomes, after, outcome);
    RelayRowsStay(rows, current, agent, staged, outcomes, after, outcome);
  }

  /** A new row goes under a free name, whoever asked for it. */
  lemma RowAdded(rows: Rows, current: Rows, agent: string, staged: seq<Call>, outcomes: seq<Outcome>,
                 spec: JobCreate, relay: bool, now: Time, tainted: bool, after: Rows)
    requires Midway(rows, current, agent, staged, outcomes) && |outcomes| < |staged| && WellFormed(after)
    requires MadeBy(staged[|outcomes|], Done(Some(spec.name)), spec.name)
    requires Inserted(current, after, agent, spec, relay, now, tainted)
    ensures Midway(rows, after, agent, staged, outcomes + [Done(Some(spec.name))])
  {
    hide NewRows, RelayRows, WellFormed, CancelCovers, NameTaken;
    var k := |outcomes|;
    var id, first :| id !in current && after == current[id := NewRow(id, agent, spec, now, first, relay, tainted)];
    OldRowsStay(rows, current, agent, staged, k, after);
    NewRowsAdded(rows, current, agent, staged, outcomes, after, id, spec.name);
    RelayRowsAdded(rows, current, agent, staged, outcomes, after, id, spec.name);
  }

  lemma NewRowsAdded(rows: Rows, current: Rows, agent: string, staged: seq<Call>, outcomes: seq<Outcome>, after: Rows,
                     id: string, name: string)
    requires |outcomes| < |staged| && NewRows(rows, current, agent, staged, outcomes)
    requires id in after && after == current[id := after[id]] && after[id].about.name == name
    requires MadeBy(staged[|outcomes|], Done(Some(name)), name)
    ensures NewRows(rows, after, agent, staged, outcomes + [Done(Some(name))])
  {
    var more := outcomes + [Done(Some(name))];
    forall other | other in after && other !in rows && after[other].Active() && after[other].about.agent == agent
      ensures exists j :: 0 <= j < |more| && MadeBy(staged[j], more[j], after[other].about.name)
    {
      if other == id {
        assert MadeBy(staged[|outcomes|], more[|outcomes|], after[other].about.name);
      } else {
        var j :| 0 <= j < |outcomes| && MadeBy(staged[j], outcomes[j], current[other].about.name);
        assert MadeBy(staged[j], more[j], after[other].about.name);
      }
    }
  }

  lemma RelayRowsAdded(rows: Rows, current: Rows, agent: string, staged: seq<Call>, outcomes: seq<Outcome>,
                       after: Rows, id: string, name: string)
    requires |outcomes| < |staged| && RelayRows(rows, current, agent, staged, outcomes)
    requires id !in current && id !in rows && id in after && after == current[id := after[id]]
    requires Matches(after[id], agent, Named(name))
    ensures RelayRows(rows, after, agent, staged, outcomes + [Done(Some(name))])
  {
    var more := outcomes + [Done(Some(name))];
    assert NewlyHeld(rows, after, agent, name);
    forall j | 0 <= j < |outcomes| && staged[j].RelayLater? && more[j].Done?
      ensures more[j].stored.Some? && NewlyHeld(rows, after, agent, more[j].stored.value)
    {
      assert outcomes[j] == more[j];
      var made :| made in current && made !in rows && Matches(current[made], agent, Named(outcomes[j].stored.value));
      assert Matches(after[made], agent, Named(more[j].stored.value));
    }
  }

  /** A staged reschedule still finds its job, and with the same time to live. */
  lemma RescheduleMoves(rows: Rows, seen: Rows, current: Rows, agent: string, staged: seq<Call>, outcomes: seq<Outcome>,
                        now: Time, after: Rows, outcome: Outcome)
    requires Midway(rows, current, agent, staged, outcomes) && |outcomes| < |staged| && WellFormed(after)
    requires Within(seen, rows) && staged[|outcomes|].RescheduleJob?
    requires Accepts(seen, agent, staged[|outcomes|], staged[..|outcomes|])
    requires exists tainted :: Ran(current, agent, staged[|outcomes|], now, tainted, after, outcome)
    ensures !outcome.Refused? && Midway(rows, after, agent, staged, outcomes + [outcome])
  {
    hide OldRows, NewRows, RelayRows, WellFormed, Matches, CancelCovers, Within;
    var k, target, every := |outcomes|, staged[|outcomes|].target, staged[|outcomes|].everySeconds;
    var f :| f in seen && Matches(seen[f], agent, target) && !CancelCovers(seen[f], staged[..k])
             && (seen[f].about.ttlSeconds.Some? ==> every <= seen[f].about.ttlSeconds.value);
    FoundAgain(rows, seen, current, agent, target, staged[..k], f);
    forall id | id in current && Matches(current[id], agent, target) ensures id == f {
      OneMatch(current, agent, target, id, f);
    }
    assert outcome.Done? ==> RescheduledOne(current, after, agent, target, every, now);
    TimesMove(rows, current, agent, staged, outcomes, after, outcome);
  }

  /** A reminder saved after the check is not one that an earlier staged call cancels. */
  lemma LateRowUncovered(staged: seq<Call>, seen: seq<Rows>, agent: string, rows: Rows, k: nat, id: string)
    requires Checked(staged, seen, agent, rows) && k < |staged|
    requires id in rows && id !in seen[k] && rows[id].Active() && rows[id].about.agent == agent
    ensures !CancelCovers(rows[id], staged[..k])
  {
    forall j | 0 <= j < k ensures !Covers(staged[..k][j], rows[id]) {
      if staged[j].CancelJob? {
        assert Accepts(seen[j], agent, staged[j], staged[..j]) && Within(seen[j], seen[k]);
        var f :| f in seen[j] && Matches(seen[j][f], agent, staged[j].target);
        if Covers(staged[j], rows[id]) {
          CoveredIsFound(rows, seen[j], agent, staged[j].target, f, id);
        }
      }
    }
  }

  /** Someone who holds a staged name when its turn comes got it after the check, or by a relay. */
  lemma HolderCameLater(staged: seq<Call>, seen: seq<Rows>, agent: string, rows: Rows, current: Rows,
                        outcomes: seq<Outcome>, id: string)
    requires Checked(staged, seen, agent, rows) && Midway(rows, current, agent, staged, outcomes)
    requires |outcomes| < |staged| && staged[|outcomes|].CreateJob?
    requires id in current && Matches(current[id], agent, Named(staged[|outcomes|].spec.name))
    ensures NameGone(staged, seen, rows, agent, outcomes, |outcomes|)
  {
    var k, name := |outcomes|, staged[|outcomes|].spec.name;
    assert Accepts(seen[k], agent, staged[k], staged[..k]) && Within(seen[k], rows);
    if id in rows {
      assert OldRow(rows[id], current[id], agent, staged[..k]) && Matches(rows[id], agent, Named(name));
      assert SavedSince(seen[k], rows, agent, name);
    } else {
      var j :| 0 <= j < k && MadeBy(staged[j], outcomes[j], current[id].about.name);
      assert !CreatesName(staged[..k][j], name);
      assert RelayTook(staged, outcomes, k, name);
    }
  }

  /** At its turn, a staged name is taken exactly when a later reminder or an earlier relay took it. */
  lemma WhoHoldsTheName(staged: seq<Call>, seen: seq<Rows>, agent: string, rows: Rows, current: Rows,
                        outcomes: seq<Outcome>)
    requires Checked(staged, seen, agent, rows) && Midway(rows, current, agent, staged, outcomes)
    requires |outcomes| < |staged| == |seen| && staged[|outcomes|].CreateJob?
    ensures NameTaken(current, agent, staged[|outcomes|].spec.name)
            <==> NameGone(staged, seen, rows, agent, outcomes, |outcomes|)
  {
    hide Checked, NewRows, WellFormed, CancelCovers, Accepts;
    var k, name := |outcomes|, staged[|outcomes|].spec.name;
    TakenIsMatched(current, agent, name);
    if NameTaken(current, agent, name) {
      var id :| id in current && Matches(current[id], agent, Named(name));
      HolderCameLater(staged, seen, agent, rows, current, outcomes, id);
    }
    if SavedSince(seen[k], rows, agent, name) {
      var id :| id in rows && id !in seen[k] && Matches(rows[id], agent, Named(name));
      LateRowUncovered(staged, seen, agent, rows, k, id);
      assert OldRow(rows[id], current[id], agent, staged[..k]) && Matches(current[id], agent, Named(name));
    }
    if RelayTook(staged, outcomes, k, name) {
      var j :| 0 <= j < k && staged[j].RelayLater? && outcomes[j].Done?
               && outcomes[j].stored.Some? && Fold(outcomes[j].stored.value) == Fold(name);
      var id :| id in current && id !in rows && Matches(current[id], agent, Named(outcomes[j].stored.value));
      assert Matches(current[id], agent, Named(name));
    }
  }

  /** One committed call: the check's promise about it holds, and the next one starts from where it relied on. */
  lemma CommitMoves(staged: seq<Call>, seen: seq<Rows>, agent: string, rows: Rows, current: Rows,
                    outcomes: seq<Outcome>,
                    now: Time, tainted: bool, after: Rows, outcome: Outcome)
    requires Checked(staged, seen, agent, rows) && Midway(rows, current, agent, staged, outcomes)
    requires |outcomes| < |staged|
    requires WellFormed(after) && Ran(current, agent, staged[|outcomes|], now, tainted, after, outcome)
    requires staged[|outcomes|].CancelJob? ==> !outcome.Broke?
    ensures Midway(rows, after, agent, staged, outcomes + [outcome])
    ensures Predicted(staged, seen, rows, agent, outcomes + [outcome], |outcomes|)
  {
    var k, call, more := |outcomes|, staged[|outcomes|], outcomes + [outcome];
    assert Accepts(seen[k], agent, call, staged[..k]) && Within(seen[k], rows);
    match call {
      case CancelJob(_) => CancelMoves(rows, seen[k], current, agent, staged, outcomes, now, after, outcome);
      case RescheduleJob(_, _) => RescheduleMoves(rows, seen[k], current, agent, staged, outcomes, now, after, outcome);
      case CreateJob(spec) =>
        WhoHoldsTheName(staged, seen, agent, rows, current, outcomes);
        assert NameGone(staged, seen, rows, agent, more, k) <==> NameGone(staged, seen, rows, agent, outcomes, k);
        if outcome.Done? {
          RowAdded(rows, current, agent, staged, outcomes, spec, false, now, tainted, after);
        } else {
          TimesMove(rows, current, agent, staged, outcomes, after, outcome);
        }
      case RelayLater(message, _) =>
        if outcome.Done? {
          RowAdded(rows, current, agent, staged, outcomes, message.(name := outcome.stored.value), true, now, tainted,
                   after);
        } else {
          TimesMove(rows, current, agent, staged, outcomes, after, outcome);
        }
      case OtherCall => TimesMove(rows, current, agent, staged, outcomes, after, outcome);
    }
  }

  // ------------------------------------------------------------------ a turn, then a yes

  /** A turn: some calls pass the check and wait; until outside text comes in, reminders are saved at once. */
  method Propose(store: Store, agent: string) returns (staged: seq<Call>, ghost seen: seq<Rows>)
    requires WellFormed(store.jobs)
    modifies store
    ensures Checked(staged, seen, agent, store.jobs) && Within(old(store.jobs), store.jobs)
  {
    staged, seen := [], [];
    var steps: nat, tainted: bool := *, *;
    while steps > 0
      invariant Checked(staged, seen, agent, store.jobs) && Within(old(store.jobs), store.jobs)
    {
      steps := steps - 1;
      var call: Call, now: Time, outside: bool := *, *, *;
      tainted := tainted || outside;
      ghost var before := store.jobs;
      if call.CreateJob? && call.spec.verbatim && !tainted {
        var outcome := Create(store, agent, call.spec, now, false);
        RemindersOnlyAdd(before, store.jobs, agent, call.spec, now, outcome);
        CheckedMoreRows(staged, seen, agent, before, store.jobs);
      } else {
        var refused := StagingError(store, agent, call, staged);
        if refused == Success(None) {
          CheckedOneMore(staged, seen, agent, store.jobs, call);
          staged, seen := staged + [call], seen + [store.jobs];
        }
      }
    }
  }

  lemma RemindersOnlyAdd(rows: Rows, after: Rows, agent: string, spec: JobCreate, now: Time, outcome: Outcome)
    requires WellFormed(rows) && Ran(rows, agent, CreateJob(spec), now, false, after, outcome)
    ensures Within(rows, after) && WellFormed(after)
  {
    if outcome.Done? {
      InsertKeepsWellFormed(rows, after, agent, spec, false, now, false);
    }
  }

  lemma InsertKeepsWellFormed(rows: Rows, after: Rows, agent: string, spec: JobCreate, relay: bool, now: Time,
                              tainted: bool)
    requires WellFormed(rows) && Inserted(rows, after, agent, spec, relay, now, tainted)
    ensures WellFormed(after) && Within(rows, after)
  {
    var id, first :| id !in rows && after == rows[id := NewRow(id, agent, spec, now, first, relay, tainted)];
    forall a | a in rows ensures !SameActiveName(rows[a], after[id]) {
      assert !(rows[a].Active() && rows[a].about.agent == agent && Fold(rows[a].about.name) == Fold(spec.name));
    }
    forall a, b | a in after && b in after && SameActiveName(after[a], after[b]) ensures a == b {
      assert SameActiveName(after[b], after[a]);
    }
  }

  lemma UpdateKeepsWellFormed(rows: Rows, id: string, row: Job)
    requires WellFormed(rows) && id in rows && row.about == rows[id].about && (row.Active() ==> rows[id].Active())
    ensures WellFormed(rows[id := row])
  {
    var after := rows[id := row];
    forall a, b | a in after && b in after && SameActiveName(after[a], after[b]) ensures a == b {
      assert SameActiveName(rows[a], rows[b]);
    }
  }

  lemma PredictionStands(staged: seq<Call>, seen: seq<Rows>, rows: Rows, agent: string, outcomes: seq<Outcome>,
                         outcome: Outcome, j: nat)
    requires j < |outcomes| <= |staged| && j < |seen| && Predicted(staged, seen, rows, agent, outcomes, j)
    ensures Predicted(staged, seen, rows, agent, outcomes + [outcome], j)
  {
    var more := outcomes + [outcome];
    if staged[j].CreateJob? {
      assert RelayTook(staged, more, j, staged[j].spec.name) <==> RelayTook(staged, outcomes, j, staged[j].spec.name);
    }
  }

  lemma StartsMidway(staged: seq<Call>, seen: seq<Rows>, agent: string, rows: Rows)
    requires Checked(staged, seen, agent, rows)
    ensures WellFormed(rows) && |seen| == |staged| && Midway(rows, rows, agent, staged, [])
  {
  }

  lemma RanKeepsWellFormed(rows: Rows, agent: string, call: Call, now: Time, tainted: bool, after: Rows,
                           outcome: Outcome)
    requires WellFormed(rows) && Ran(rows, agent, call, now, tainted, after, outcome)
    ensures WellFormed(after)
  {
    hide WellFormed, Inserted;
    if outcome.Done? {
      match call {
        case CreateJob(spec) => InsertKeepsWellFormed(rows, after, agent, spec, false, now, tainted);
        case RelayLater(message, _) =>
          InsertKeepsWellFormed(rows, after, agent, message.(name := outcome.stored.value), true, now, tainted);
        case CancelJob(target) =>
          var id :| id in rows && Matches(rows[id], agent, target)
                    && after == rows[id := rows[id].(cancelledAt := Some(now))];
          UpdateKeepsWellFormed(rows, id, after[id]);
        case RescheduleJob(target, every) =>
          var id :| id in rows && Matches(rows[id], agent, target)
                    && after == rows[id := rows[id].Rescheduled(every, now + every as real)];
          UpdateKeepsWellFormed(rows, id, after[id]);
        case OtherCall =>
      }
    }
  }

  /** With nothing saved at once during the turn and no scheduled relay in the proposal, nothing is refused. */
  lemma QuietTurnNeverRefused(staged: seq<Call>, seen: seq<Rows>, rows: Rows, agent: string, outcomes: seq<Outcome>,
                              k: nat)
    requires k < |staged| == |seen| == |outcomes|
    requires Predicted(staged, seen, rows, agent, outcomes, k)
    requires seen[k] == rows && forall j :: 0 <= j < k ==> !staged[j].RelayLater?
    ensures !staged[k].RelayLater? && !staged[k].OtherCall? ==> !outcomes[k].Refused?
  {
  }

  /** Not every turn is quiet: a digest staged under a name, and then a reminder saved at once under the same name. */
  lemma ReminderCanTakeAStagedName(agent: string, now: Time)
    ensures exists digest: JobCreate, reminder: JobCreate, after: Rows ::
              && Accepts(map[], agent, CreateJob(digest), [])
              && Ran(map[], agent, CreateJob(reminder), now, false, after, Done(Some(reminder.name)))
              && Deserved(after, agent, CreateJob(digest), AlreadyExists)
  {
    var digest := JobCreate(Schedule, "News", "the headlines", 86400, None, None, None, false, false);
    var reminder := JobCreate(Schedule, "news", "read the news", 86400, None, None, Some(60), true, true);
    var row := NewRow("j00000001", agent, reminder, now, now + 60.0, false, false);
    var after: Rows := map["j00000001" := row];
    assert Inserted(map[], after, agent, reminder, false, now, false);
    assert Fold("News") == Fold("news");
    assert Matches(after["j00000001"], agent, Named("News"));
    assert Ran(map[], agent, CreateJob(reminder), now, false, after, Done(Some(reminder.name)));
    assert Accepts(map[], agent, CreateJob(digest), []);
    assert Deserved(after, agent, CreateJob(digest), AlreadyExists);
  }

  /** Nor does the check see the name an earlier scheduled relay will take. */
  lemma RelayCanTakeAStagedName(agent: string, now: Time)
    ensures exists message: JobCreate, digest: JobCreate, after: Rows ::
              && Accepts(map[], agent, RelayLater(message, true), [])
              && Accepts(map[], agent, CreateJob(digest), [RelayLater(message, true)])
              && Ran(map[], agent, RelayLater(message, true), now, false, after, Done(Some(message.name)))
              && Deserved(after, agent, CreateJob(digest), AlreadyExists)
  {
    var message := JobCreate(Schedule, "news", "call me", 86400, None, None, Some(60), true, true);
    var digest := JobCreate(Schedule, "News", "the headlines", 86400, None, None, None, false, false);
    var row := NewRow("j00000001", agent, message, now, now + 60.0, true, false);
    var after: Rows := map["j00000001" := row];
    assert message.(name := message.name) == message;
    assert Inserted(map[], after, agent, message, true, now, false);
    assert Fold("News") == Fold("news");
    assert Matches(after["j00000001"], agent, Named("News"));
    assert Ran(map[], agent, RelayLater(message, true), now, false, after, Done(Some(message.name)));
    assert Accepts(map[], agent, CreateJob(digest), [RelayLater(message, true)]);
    assert Deserved(after, agent, CreateJob(digest), AlreadyExists);
  }
}
