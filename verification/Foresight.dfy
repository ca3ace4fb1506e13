/**
 Which staged create will be refused at the yes can be told before it: the names a proposal will find taken follow from
 the calls and the table alone.
 */
module Foresight {
  import opened Wrappers
  import opened Names
  import opened JobRows
  import opened JobStore
  import opened Staging
  import opened StagedProposal

  /** Folded names of an agent's active jobs. */
  function ActiveNames(rows: Rows, agent: string): set<string> {
    set id | id in rows && rows[id].Active() && rows[id].about.agent == agent :: Fold(rows[id].about.name)
  }

  function FirstFree(names: set<string>, base: string, n: nat): Option<string>
    requires 2 <= n <= 100
    decreases 100 - n
  {
    if n == 100 then None
    else if Fold(Numbered(base, n)) !in names then Some(Numbered(base, n))
    else FirstFree(names, base, n + 1)
  }

  /** The name a scheduled relay will get. */
  function RelayPick(names: set<string>, base: string, explicit: bool): Option<string> {
    if Fold(base) !in names then Some(base) else if explicit then None else FirstFree(names, base, 2)
  }

  /** The name a cancel frees, going by the table before the yes. */
  function Freed(rows: Rows, target: Target): set<string> {
    if target.name.Some? then {Fold(target.name.value)}
    else if target.id.Some? && target.id.value in rows then {Fold(rows[target.id.value].about.name)}
    else {}
  }

  function NamesAfter(rows: Rows, names: set<string>, call: Call): set<string> {
    match call
    case CreateJob(spec) => names + {Fold(spec.name)}
    case CancelJob(target) => names - Freed(rows, target)
    case RelayLater(message, explicit) =>
      var pick := RelayPick(names, message.name, explicit);
      if pick.Some? then names + {Fold(pick.value)} else names
    case RescheduleJob(_, _) => names
    case OtherCall => names
  }

  /** The names that will be taken when the turn of call `k` comes, if nothing breaks. */
  function Foreseen(rows: Rows, agent: string, staged: seq<Call>, k: nat): set<string>
    requires k <= |staged|
  {
    if k == 0 then ActiveNames(rows, agent)
    else NamesAfter(rows, Foreseen(rows, agent, staged, k - 1), staged[k-1])
  }

  lemma TakenIsActive(rows: Rows, agent: string, name: string)
    ensures NameTaken(rows, agent, name) <==> Fold(name) in ActiveNames(rows, agent)
  {
  }

  // ------------------------------------------------------------------ the names follow the calls

  lemma {:induction false} FirstFreeIsNumbered(rows: Rows, agent: string, base: string, n: nat)
    requires 2 <= n <= 100
    ensures var pick := FirstFree(ActiveNames(rows, agent), base, n);
            if pick.None? then forall m :: n <= m < 100 ==> NameTaken(rows, agent, Numbered(base, m))
            else exists m :: n <= m < 100 && pick.value == Numbered(base, m) && !NameTaken(rows, agent, pick.value)
                             && forall i :: n <= i < m ==> NameTaken(rows, agent, Numbered(base, i))
    decreases 100 - n
  {
    hide NameTaken, ActiveNames, Numbered;
    if n < 100 {
      TakenIsActive(rows, agent, Numbered(base, n));
      FirstFreeIsNumbered(rows, agent, base, n + 1);
    }
  }

  /** A relay that is stored gets the name foreseen, and one that is refused had none to get. */
  lemma PickIsStored(rows: Rows, agent: string, base: string, explicit: bool, name: string)
    requires RelayNamed(rows, agent, base, explicit, name) && !NameTaken(rows, agent, name)
    ensures RelayPick(ActiveNames(rows, agent), base, explicit) == Some(name)
  {
    hide NameTaken, ActiveNames, Numbered;
    TakenIsActive(rows, agent, base);
    TakenIsActive(rows, agent, name);
    if name != base {
      FirstFreeIsNumbered(rows, agent, base, 2);
      var n: nat :| NumberedFirst(rows, agent, base, n, name);
      var pick := FirstFree(ActiveNames(rows, agent), base, 2);
      if pick.Some? {
        var m :| 2 <= m < 100 && pick.value == Numbered(base, m) && !NameTaken(rows, agent, pick.value)
                 && forall i :: 2 <= i < m ==> NameTaken(rows, agent, Numbered(base, i));
        assert m == n;
      }
    }
  }

  lemma NoPickWhenRefused(rows: Rows, agent: string, base: string, explicit: bool)
    requires NoRelayName(rows, agent, base, explicit)
    ensures RelayPick(ActiveNames(rows, agent), base, explicit) == None
  {
    hide NameTaken, ActiveNames, Numbered;
    TakenIsActive(rows, agent, base);
    if !explicit {
      FirstFreeIsNumbered(rows, agent, base, 2);
    }
  }

  lemma InsertedNames(rows: Rows, after: Rows, agent: string, spec: JobCreate, relay: bool, now: Time, tainted: bool)
    requires Inserted(rows, after, agent, spec, relay, now, tainted)
    ensures ActiveNames(after, agent) == ActiveNames(rows, agent) + {Fold(spec.name)}
    ensures !NameTaken(rows, agent, spec.name)
  {
    var id, first :| id !in rows && after == rows[id := NewRow(id, agent, spec, now, first, relay, tainted)];
    forall name ensures name in ActiveNames(after, agent) <==> name in ActiveNames(rows, agent) + {Fold(spec.name)} {
      if name == Fold(spec.name) {
        assert after[id].Active() && Fold(after[id].about.name) == name;
      }
      if name in ActiveNames(rows, agent) {
        var other :| other in rows && rows[other].Active() && rows[other].about.agent == agent
                     && Fold(rows[other].about.name) == name;
        assert after[other] == rows[other];
      }
    }
  }

  lemma CancelledNames(rows: Rows, current: Rows, agent: string, target: Target, now: Time, id: string)
    requires WellFormed(rows) && WellFormed(current) && id in current && Matches(current[id], agent, target)
    requires id in rows && rows[id].about == current[id].about
    ensures ActiveNames(current[id := current[id].(cancelledAt := Some(now))], agent)
            == ActiveNames(current, agent) - Freed(rows, target)
  {
    var after := current[id := current[id].(cancelledAt := Some(now))];
    var gone := Fold(current[id].about.name);
    assert Freed(rows, target) == {gone};
    forall name ensures name in ActiveNames(after, agent) <==> name in ActiveNames(current, agent) - {gone} {
      if name in ActiveNames(after, agent) {
        var other :| other in after && after[other].Active() && after[other].about.agent == agent
                     && Fold(after[other].about.name) == name;
        assert other != id && current[other] == after[other];
        assert !SameActiveName(current[other], current[id]);
      }
      if name in ActiveNames(current, agent) && name != gone {
        var other :| other in current && current[other].Active() && current[other].about.agent == agent
                     && Fold(current[other].about.name) == name;
        assert after[other] == current[other];
      }
    }
  }

  lemma RescheduledNames(current: Rows, agent: string, target: Target, every: int, now: Time, after: Rows)
    requires RescheduledOne(current, after, agent, target, every, now)
    ensures ActiveNames(after, agent) == ActiveNames(current, agent)
  {
    var id :| id in current && Matches(current[id], agent, target)
              && after == current[id := current[id].Rescheduled(every, now + every as real)];
    assert forall other :: other in current ==>
             after[other].about == current[other].about && after[other].Active() == current[other].Active();
    forall name ensures name in ActiveNames(after, agent) <==> name in ActiveNames(current, agent) {
      if name in ActiveNames(current, agent) {
        var other :| other in current && current[other].Active() && current[other].about.agent == agent
                     && Fold(current[other].about.name) == name;
        assert after[other].Active();
      }
    }
  }

  /** The row a staged cancel hits was in the table before the yes. */
  lemma CancelHitsOldRow(rows: Rows, seen: Rows, current: Rows, agent: string, staged: seq<Call>,
                         outcomes: seq<Outcome>, id: string)
    requires Midway(rows, current, agent, staged, outcomes) && |outcomes| < |staged|
    requires WellFormed(rows) && Within(seen, rows) && staged[|outcomes|].CancelJob?
    requires Accepts(seen, agent, staged[|outcomes|], staged[..|outcomes|])
    requires id in current && Matches(current[id], agent, staged[|outcomes|].target)
    ensures id in rows && rows[id].about == current[id].about
  {
    hide NewRows, RelayRows, WellFormed, Matches, CancelCovers, Within;
    var k, target := |outcomes|, staged[|outcomes|].target;
    var f :| f in seen && Matches(seen[f], agent, target) && !CancelCovers(seen[f], staged[..k]);
    FoundAgain(rows, seen, current, agent, target, staged[..k], f);
    OneMatch(current, agent, target, id, f);
    assert OldRow(rows[f], current[f], agent, staged[..k]);
  }

  /** One committed call that does not break takes and frees the names foreseen. */
  lemma NamesMove(staged: seq<Call>, seen: seq<Rows>, agent: string, rows: Rows, current: Rows, outcomes: seq<Outcome>,
                  now: Time, tainted: bool, after: Rows, outcome: Outcome)
    requires Checked(staged, seen, agent, rows) && Midway(rows, current, agent, staged, outcomes)
    requires |outcomes| < |staged| == |seen| && !outcome.Broke?
    requires Ran(current, agent, staged[|outcomes|], now, tainted, after, outcome)
    requires staged[|outcomes|].CancelJob? ==> outcome.Done?
    ensures ActiveNames(after, agent) == NamesAfter(rows, ActiveNames(current, agent), staged[|outcomes|])
  {
    hide Midway, WellFormed, Matches, Inserted, RelayNamed, NoRelayName, ActiveNames, NameTaken, CancelCovers;
    var k, call := |outcomes|, staged[|outcomes|];
    assert Accepts(seen[k], agent, call, staged[..k]) && Within(seen[k], rows);
    match call {
      case CreateJob(spec) =>
        if outcome.Done? {
          InsertedNames(current, after, agent, spec, false, now, tainted);
        } else {
          TakenIsMatched(current, agent, spec.name);
          TakenIsActive(current, agent, spec.name);
        }
      case RelayLater(message, explicit) =>
        if outcome.Done? {
          InsertedNames(current, after, agent, message.(name := outcome.stored.value), true, now, tainted);
          PickIsStored(current, agent, message.name, explicit, outcome.stored.value);
        } else {
          NoPickWhenRefused(current, agent, message.name, explicit);
        }
      case CancelJob(target) =>
        var id :| id in current && Matches(current[id], agent, target)
                  && after == current[id := current[id].(cancelledAt := Some(now))];
        CancelHitsOldRow(rows, seen[k], current, agent, staged, outcomes, id);
        MidwayIsWellFormed(rows, current, agent, staged, outcomes);
        CancelledNames(rows, current, agent, target, now, id);
      case RescheduleJob(target, every) =>
        if outcome.Done? {
          RescheduledNames(current, agent, target, every, now, after);
        }
      case OtherCall =>
    }
  }

  lemma MidwayIsWellFormed(rows: Rows, current: Rows, agent: string, staged: seq<Call>, outcomes: seq<Outcome>)
    requires Midway(rows, current, agent, staged, outcomes)
    ensures WellFormed(current)
  {
  }

  /** With nothing broken, a create is refused if and only if its name is among those foreseen. */
  lemma RefusedWhenForeseen(rows: Rows, agent: string, call: Call, names: set<string>, current: Rows, now: Time,
                            tainted: bool, after: Rows, outcome: Outcome)
    requires call.CreateJob? && !outcome.Broke? && names == ActiveNames(current, agent)
    requires Ran(current, agent, call, now, tainted, after, outcome)
    ensures outcome.Refused? <==> Fold(call.spec.name) in names
  {
    hide ActiveNames, Inserted;
    TakenIsMatched(current, agent, call.spec.name);
    TakenIsActive(current, agent, call.spec.name);
    if outcome.Done? {
      InsertedNames(current, after, agent, call.spec, false, now, tainted);
    }
  }

  // ------------------------------------------------------------------ what a foreseen name comes from

  /** The name is the relay's own, or for a default name a numbered form of it. */
  ghost predicate MayTake(call: Call, name: string) {
    && call.RelayLater?
    && (|| Fold(call.message.name) == Fold(name)
        || (!call.explicit && exists n :: 2 <= n < 100 && Fold(Numbered(call.message.name, n)) == Fold(name)))
  }

  ghost predicate RelayMayTake(staged: seq<Call>, k: nat, name: string)
    requires k <= |staged|
  {
    exists j :: 0 <= j < k && MayTake(staged[j], name)
  }

  lemma {:induction false} FirstFreeFits(names: set<string>, base: string, n: nat)
    requires 2 <= n <= 100
    ensures var pick := FirstFree(names, base, n);
            pick.Some? ==> exists m :: 2 <= m < 100 && pick.value == Numbered(base, m)
    decreases 100 - n
  {
    if n < 100 && Fold(Numbered(base, n)) in names {
      FirstFreeFits(names, base, n + 1);
    }
  }

  /** A foreseen name was active and not freed so far, or a create or a relay so far may have taken it. */
  lemma {:induction false} WhereFrom(rows: Rows, agent: string, staged: seq<Call>, k: nat, name: string)
    requires k <= |staged| && Fold(name) in Foreseen(rows, agent, staged, k)
    ensures || (Fold(name) in ActiveNames(rows, agent)
                && forall j :: 0 <= j < k && staged[j].CancelJob? ==> Fold(name) !in Freed(rows, staged[j].target))
            || RelayMayTake(staged, k, name)
            || exists j :: 0 <= j < k && CreatesName(staged[j], name)
    decreases k
  {
    hide ActiveNames, Numbered;
    if k > 0 {
      var call := staged[k-1];
      if call.CreateJob? && Fold(call.spec.name) == Fold(name) {
        assert CreatesName(staged[k-1], name);
      } else if Fold(name) in Foreseen(rows, agent, staged, k - 1) {
        WhereFrom(rows, agent, staged, k - 1, name);
      } else {
        FirstFreeFits(Foreseen(rows, agent, staged, k - 1), call.message.name, 2);
        assert MayTake(staged[k-1], name);
      }
    }
  }

  /** A staged create can lose its name only to a reminder saved since, or to an earlier relay that may take it. */
  lemma ForeseenMeans(staged: seq<Call>, seen: seq<Rows>, agent: string, rows: Rows, k: nat)
    requires Checked(staged, seen, agent, rows) && k < |staged| && staged[k].CreateJob?
    requires Fold(staged[k].spec.name) in Foreseen(rows, agent, staged, k)
    ensures SavedSince(seen[k], rows, agent, staged[k].spec.name) || RelayMayTake(staged, k, staged[k].spec.name)
  {
    var name := staged[k].spec.name;
    WhereFrom(rows, agent, staged, k, name);
    assert Accepts(seen[k], agent, staged[k], staged[..k]) && Within(seen[k], rows);
    assert forall j :: 0 <= j < k ==> !CreatesName(staged[..k][j], name);
    if !RelayMayTake(staged, k, name) {
      var id :| id in rows && rows[id].Active() && rows[id].about.agent == agent
                && Fold(rows[id].about.name) == Fold(name);
      forall j | 0 <= j < k ensures !Covers(staged[..k][j], rows[id]) {
        if staged[j].CancelJob? {
          NotFreedNotCovered(staged, seen, agent, rows, j, id);
        }
      }
      assert id in seen[k] ==> Matches(seen[k][id], agent, Named(name));
    }
  }

  /** A staged cancel that would cover an active row frees its name. */
  lemma NotFreedNotCovered(staged: seq<Call>, seen: seq<Rows>, agent: string, rows: Rows, j: nat, id: string)
    requires Checked(staged, seen, agent, rows) && j < |staged| && staged[j].CancelJob?
    requires id in rows && rows[id].Active() && rows[id].about.agent == agent
    ensures Covers(staged[j], rows[id]) ==> Fold(rows[id].about.name) in Freed(rows, staged[j].target)
  {
    assert Accepts(seen[j], agent, staged[j], staged[..j]) && Within(seen[j], rows);
    var f :| f in seen[j] && Matches(seen[j][f], agent, staged[j].target);
    if Covers(staged[j], rows[id]) {
      CoveredIsFound(rows, seen[j], agent, staged[j].target, f, id);
    }
  }

  // ------------------------------------------------------------------ the commit

  method RunOne(store: Store, agent: string, call: Call, now: Time, tainted: bool) returns (outcome: Outcome)
    requires WellFormed(store.jobs)
    modifies store
    ensures Ran(old(store.jobs), agent, call, now, tainted, store.jobs, outcome)
  {
    match call {
      case CreateJob(spec) => outcome := Create(store, agent, spec, now, tainted);
      case CancelJob(target) => outcome := Staging.Cancel(store, agent, target, now);
      case RescheduleJob(target, every) => outcome := Reschedule(store, agent, target, every, now);
      case RelayLater(message, explicit) => outcome := StoreRelay(store, agent, message, explicit, now, tainted);
      case OtherCall => outcome := Done(None);
    }
  }

  ghost predicate Unbroken(outcomes: seq<Outcome>, k: nat) {
    k <= |outcomes| && forall j :: 0 <= j < k ==> !outcomes[j].Broke?
  }

  /** A create is refused exactly when its name is foreseen to be taken. */
  ghost predicate AsForeseen(rows: Rows, agent: string, staged: seq<Call>, outcomes: seq<Outcome>, k: nat)
    requires k < |staged| && k < |outcomes|
  {
    staged[k].CreateJob? && Unbroken(outcomes, k + 1) ==>
      (outcomes[k].Refused? <==> Fold(staged[k].spec.name) in Foreseen(rows, agent, staged, k))
  }

  /**
   The calls of a proposal, run in order against the table the turn left. As long as no cancel met a failing store,
   no cancel or reschedule is refused, and a create is refused only when its name was taken by a reminder saved later
   in the turn or by an earlier scheduled relay; and with the name taken it never succeeds. As long as nothing broke,
   which creates are refused could be told from the calls and the table before the yes.
   */
  method CommitAll(store: Store, agent: string, staged: seq<Call>, ghost seen: seq<Rows>)
    returns (outcomes: seq<Outcome>)
    requires Checked(staged, seen, agent, store.jobs)
    modifies store
    ensures |outcomes| == |staged|
    ensures (forall j :: 0 <= j < |staged| && staged[j].CancelJob? ==> !outcomes[j].Broke?) ==>
              forall k :: 0 <= k < |staged| ==> Predicted(staged, seen, old(store.jobs), agent, outcomes, k)
    ensures forall k :: 0 <= k < |staged| ==> AsForeseen(old(store.jobs), agent, staged, outcomes, k)
  {
    hide Midway, Predicted, Checked, Ran, AsForeseen, Foreseen, ActiveNames;
    ghost var rows := store.jobs;
    outcomes := [];
    StartsMidway(staged, seen, agent, rows);
    NothingForeseen(rows, agent, staged);
    ghost var smooth := true;
    for k := 0 to |staged|
      invariant |outcomes| == k && |seen| == |staged|
      invariant WellFormed(store.jobs)
      invariant smooth ==> Midway(rows, store.jobs, agent, staged, outcomes)
      invariant smooth ==> forall j :: 0 <= j < k ==> Predicted(staged, seen, rows, agent, outcomes, j)
      invariant smooth <==> forall j :: 0 <= j < k && staged[j].CancelJob? ==> !outcomes[j].Broke?
      invariant Unbroken(outcomes, k) ==> ActiveNames(store.jobs, agent) == Foreseen(rows, agent, staged, k)
      invariant forall j :: 0 <= j < k ==> AsForeseen(rows, agent, staged, outcomes, j)
    {
      ghost var before := store.jobs;
      var now: Time, tainted: bool := *, *;
      var outcome := RunOne(store, agent, staged[k], now, tainted);
      RanKeepsWellFormed(before, agent, staged[k], now, tainted, store.jobs, outcome);
      if smooth && !(staged[k].CancelJob? && outcome.Broke?) {
        CommitMoves(staged, seen, agent, rows, before, outcomes, now, tainted, store.jobs, outcome);
        forall j | 0 <= j < k ensures Predicted(staged, seen, rows, agent, outcomes + [outcome], j) {
          PredictionStands(staged, seen, rows, agent, outcomes, outcome, j);
        }
      } else {
        smooth := false;
      }
      if Unbroken(outcomes + [outcome], k + 1) {
        StillUnbroken(outcomes, outcome);
        NotRefused(staged, seen, rows, agent, outcomes + [outcome], k);
        NamesMove(staged, seen, agent, rows, before, outcomes, now, tainted, store.jobs, outcome);
        ForeseenStep(rows, agent, staged, k);
      }
      ForesightStands(rows, agent, staged, before, outcomes, now, tainted, store.jobs, outcome);
      outcomes := outcomes + [outcome];
    }
  }

  lemma StillUnbroken(outcomes: seq<Outcome>, outcome: Outcome)
    requires Unbroken(outcomes + [outcome], |outcomes| + 1)
    ensures Unbroken(outcomes, |outcomes|) && !outcome.Broke?
  {
    assert (outcomes + [outcome])[|outcomes|] == outcome;
    forall j | 0 <= j < |outcomes| ensures !outcomes[j].Broke? {
      assert (outcomes + [outcome])[j] == outcomes[j];
    }
  }

  lemma NotRefused(staged: seq<Call>, seen: seq<Rows>, rows: Rows, agent: string, outcomes: seq<Outcome>, k: nat)
    requires k < |staged| && k < |seen| && k < |outcomes| && Predicted(staged, seen, rows, agent, outcomes, k)
    ensures staged[k].CancelJob? ==> !outcomes[k].Refused?
  {
  }

  lemma NothingForeseen(rows: Rows, agent: string, staged: seq<Call>)
    ensures Foreseen(rows, agent, staged, 0) == ActiveNames(rows, agent)
  {
  }

  lemma ForeseenStep(rows: Rows, agent: string, staged: seq<Call>, k: nat)
    requires k < |staged|
    ensures Foreseen(rows, agent, staged, k + 1) == NamesAfter(rows, Foreseen(rows, agent, staged, k), staged[k])
  {
  }

  lemma ForesightStands(rows: Rows, agent: string, staged: seq<Call>, current: Rows, outcomes: seq<Outcome>,
                        now: Time, tainted: bool, after: Rows, outcome: Outcome)
    requires |outcomes| < |staged| && Ran(current, agent, staged[|outcomes|], now, tainted, after, outcome)
    requires Unbroken(outcomes, |outcomes|) ==> ActiveNames(current, agent) == Foreseen(rows, agent, staged, |outcomes|)
    requires forall j :: 0 <= j < |outcomes| ==> AsForeseen(rows, agent, staged, outcomes, j)
    ensures forall j :: 0 <= j <= |outcomes| ==> AsForeseen(rows, agent, staged, outcomes + [outcome], j)
  {
    hide Ran, ActiveNames, Foreseen;
    var k, more := |outcomes|, outcomes + [outcome];
    forall j | 0 <= j <= k ensures AsForeseen(rows, agent, staged, more, j) {
      if j < k {
        assert AsForeseen(rows, agent, staged, outcomes, j);
        assert Unbroken(more, j + 1) ==> Unbroken(outcomes, j + 1) by {
          assert forall i :: 0 <= i <= j ==> more[i] == outcomes[i];
        }
      } else if staged[k].CreateJob? && Unbroken(more, k + 1) {
        StillUnbroken(outcomes, outcome);
        RefusedWhenForeseen(rows, agent, staged[k], Foreseen(rows, agent, staged, k), current, now, tainted, after,
                            outcome);
      }
    }
  }
}
