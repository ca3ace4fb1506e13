/**
 The three kinds of locks of the channel and the tasks that take them: one peer lock a sender, a counting semaphore of
 turn slots, one history lock an agent. A task is the straight line of takes and gives that its run turns out to be.
 */
module Locks {
  import opened Messages
  import opened Broker
  import opened Collections

  datatype Lock = Peer(number: string) | Slot | History(agent: string)

  function Rank(l: Lock): nat {
    match l case Peer(_) => 0 case Slot => 1 case History(_) => 2
  }

  datatype Act = Take(lock: Lock) | Give(lock: Lock)

  type Program = seq<Act>

  function Around(l: Lock, inner: Program): Program { [Take(l)] + inner + [Give(l)] }

  function Touch(agent: string): Program { Around(History(agent), []) }

  /** Handlers that ran: a relay writes its record under the other person's history lock. */
  function Relays(ran: seq<ToolCall>, other: string): Program {
    if ran == [] then []
    else (if ran[0].name == RELAY_TOOL then Touch(other) else []) + Relays(ran[1..], other)
  }

  /** What the channel does under a message's peer lock. */
  datatype Body =
    | Answered                                              // refused, unbound, or over its budget
    | Expired                                               // a yes or no that came too late
    | Talk(agent: string, ran: seq<ToolCall>, other: string)          // a turn, and the handlers it ran
    | Reject(agent: string)                                 // a no, or a yes that could not start
    | Confirm(agent: string, ran: seq<ToolCall>, other: string, noted: bool)   // the stored calls, then the summary

  datatype Work =
    | Inbound(number: string, body: Body)
    | JobRun(number: string, agent: string, ran: seq<ToolCall>, other: string)
    | Report(agent: string)                                 // a job report goes into the history
    | Record(agent: string)                                 // a scheduled relay's record does

  function BodyProgram(b: Body): Program {
    match b
    case Answered => []
    case Expired => Around(Slot, [])
    case Talk(agent, ran, other) => Around(Slot, Around(History(agent), Relays(ran, other)))
    case Reject(agent) => Around(Slot, Touch(agent))
    case Confirm(agent, ran, other, noted) =>
      Around(Slot, Touch(agent) + Relays(ran, other) + if noted then Touch(agent) else [])
  }

  function ProgramOf(w: Work): Program {
    match w
    case Inbound(number, body) => Around(Peer(number), BodyProgram(body))
    case JobRun(number, agent, ran, other) =>
      Around(Peer(number), Around(Slot, Around(History(agent), Relays(ran, other))))
    case Report(agent) => Touch(agent)
    case Record(agent) => Touch(agent)
  }

  // ------------------------------------------------------------------ relay is staged

  predicate NoRelay(ran: seq<ToolCall>) {
    forall i :: 0 <= i < |ran| ==> ran[i].name != RELAY_TOOL
  }

  /** Work as it is while a relay waits for a yes: none runs inside a turn. */
  predicate RelayStaged(w: Work) {
    match w
    case Inbound(_, body) => body.Talk? ==> NoRelay(body.ran)
    case JobRun(_, _, ran, _) => NoRelay(ran)
    case Report(_) => true
    case Record(_) => true
  }

  /**
   That is what the broker enforces: what a turn runs is permitted, and a staging tool other than a reminder is not.
   */
  lemma PermittedIsNotRelay(surface: BoundSurface, ran: seq<Ran>, calls: seq<ToolCall>)
    requires RELAY_TOOL in surface.catalog && surface.catalog[RELAY_TOOL].staging
    requires |calls| == |ran| && forall i :: 0 <= i < |ran| ==> surface.Permitted(ran[i]) && ran[i].call == calls[i]
    ensures NoRelay(calls)
  {
    forall i | 0 <= i < |calls| ensures calls[i].name != RELAY_TOOL {
      assert surface.Permitted(ran[i]);
    }
  }

  lemma {:induction false} NoRelayNoLock(ran: seq<ToolCall>, other: string)
    requires NoRelay(ran)
    ensures Relays(ran, other) == []
  {
    if ran != [] {
      NoRelayNoLock(ran[1..], other);
    }
  }

  // ------------------------------------------------------------------ every task climbs

  /** Locks are taken in rising rank, only held ones are given back, and nothing is kept. */
  predicate Climbs(todo: Program, held: set<Lock>)
    decreases |todo|
  {
    if todo == [] then held == {}
    else match todo[0]
      case Take(l) => (forall h :: h in held ==> Rank(h) < Rank(l)) && Climbs(todo[1..], held + {l})
      case Give(l) => l in held && Climbs(todo[1..], held - {l})
  }

  /** A piece of program that can stand wherever only locks below `rank` are held. */
  ghost predicate Fits(piece: Program, rank: nat) {
    forall held: set<Lock>, rest: Program ::
      (forall h :: h in held ==> Rank(h) < rank) && Climbs(rest, held) ==> Climbs(piece + rest, held)
  }

  lemma FitsEmpty(rank: nat)
    ensures Fits([], rank)
  {
    forall held: set<Lock>, rest: Program | Climbs(rest, held) ensures Climbs([] + rest, held) {
      assert [] + rest == rest;
    }
  }

  lemma FitsJoin(p: Program, q: Program, rank: nat)
    requires Fits(p, rank) && Fits(q, rank)
    ensures Fits(p + q, rank)
  {
    forall held: set<Lock>, rest: Program | (forall h :: h in held ==> Rank(h) < rank) && Climbs(rest, held)
      ensures Climbs(p + q + rest, held)
    {
      assert Climbs(q + rest, held);
      assert p + q + rest == p + (q + rest);
    }
  }

  lemma FitsAround(l: Lock, inner: Program)
    requires Fits(inner, Rank(l) + 1)
    ensures Fits(Around(l, inner), Rank(l))
  {
    forall held: set<Lock>, rest: Program | (forall h :: h in held ==> Rank(h) < Rank(l)) && Climbs(rest, held)
      ensures Climbs(Around(l, inner) + rest, held)
    {
      var more := held + {l};
      assert more - {l} == held;
      assert ([Give(l)] + rest)[1..] == rest;
      assert Climbs([Give(l)] + rest, more);
      assert Climbs(inner + ([Give(l)] + rest), more);
      assert (Around(l, inner) + rest)[1..] == inner + ([Give(l)] + rest);
    }
  }

  lemma FitsTouch(agent: string)
    ensures Fits(Touch(agent), 2)
  {
    FitsEmpty(3);
    FitsAround(History(agent), []);
  }

  lemma {:induction false} FitsRelays(ran: seq<ToolCall>, other: string)
    ensures Fits(Relays(ran, other), 2)
  {
    FitsEmpty(2);
    if ran != [] {
      FitsTouch(other);
      FitsRelays(ran[1..], other);
      FitsJoin(if ran[0].name == RELAY_TOOL then Touch(other) else [], Relays(ran[1..], other), 2);
    }
  }

  lemma FitsTurn(agent: string, ran: seq<ToolCall>, other: string)
    requires NoRelay(ran)
    ensures Fits(Around(Slot, Around(History(agent), Relays(ran, other))), 1)
  {
    NoRelayNoLock(ran, other);
    FitsTouch(agent);
    FitsAround(Slot, Touch(agent));
  }

  lemma FitsBody(b: Body)
    requires b.Talk? ==> NoRelay(b.ran)
    ensures Fits(BodyProgram(b), 1)
  {
    match b {
      case Answered => FitsEmpty(1);
      case Expired => FitsEmpty(2); FitsAround(Slot, []);
      case Talk(agent, ran, other) => FitsTurn(agent, ran, other);
      case Reject(agent) => FitsTouch(agent); FitsAround(Slot, Touch(agent));
      case Confirm(agent, ran, other, noted) =>
        FitsTouch(agent);
        FitsEmpty(2);
        FitsRelays(ran, other);
        FitsJoin(Touch(agent), Relays(ran, other), 2);
        FitsJoin(Touch(agent) + Relays(ran, other), if noted then Touch(agent) else [], 2);
        FitsAround(Slot, Touch(agent) + Relays(ran, other) + if noted then Touch(agent) else []);
    }
  }

  /** Peer, then slot, then history: whatever a task turns out to do, it takes its locks in this order. */
  lemma EveryTaskClimbs(w: Work)
    requires RelayStaged(w)
    ensures Climbs(ProgramOf(w), {})
  {
    var p := ProgramOf(w);
    match w {
      case Inbound(number, body) => FitsBody(body); FitsAround(Peer(number), BodyProgram(body));
      case JobRun(number, agent, ran, other) =>
        FitsTurn(agent, ran, other);
        FitsAround(Peer(number), Around(Slot, Around(History(agent), Relays(ran, other))));
      case Report(agent) => FitsTouch(agent);
      case Record(agent) => FitsTouch(agent);
    }
    assert Climbs([], {});
    assert p + [] == p;
  }

  // ------------------------------------------------------------------ tasks side by side

  datatype Task = Task(todo: Program, held: set<Lock>)

  type World = seq<Task>

  function Holders(s: World, l: Lock): set<nat> {
    set i: nat | i < |s| && l in s[i].held
  }

  predicate Free(n: nat, s: World, l: Lock) {
    if l.Slot? then |Holders(s, l)| < n else Holders(s, l) == {}
  }

  predicate Unfinished(s: World, i: nat) { i < |s| && s[i].todo != [] }

  predicate Waits(n: nat, s: World, i: nat) {
    Unfinished(s, i) && s[i].todo[0].Take? && !Free(n, s, s[i].todo[0].lock)
  }

  predicate CanGo(n: nat, s: World, i: nat) {
    Unfinished(s, i) && !Waits(n, s, i)
  }

  function Moved(t: Task): Task
    requires t.todo != []
  {
    Task(t.todo[1..], if t.todo[0].Take? then t.held + {t.todo[0].lock} else t.held - {t.todo[0].lock})
  }

  /** A task begins, or one that does not wait takes its next step. `staged` says whether relays wait for a yes. */
  ghost predicate Begins(staged: bool, s: World, t: World) {
    exists w: Work :: (staged ==> RelayStaged(w)) && t == s + [Task(ProgramOf(w), {})]
  }

  ghost predicate Goes(n: nat, s: World, t: World) {
    exists i: nat :: CanGo(n, s, i) && t == s[i := Moved(s[i])]
  }

  ghost predicate Run(n: nat, staged: bool, run: seq<World>) {
    && run != [] && run[0] == []
    && forall k :: 0 < k < |run| ==> Begins(staged, run[k-1], run[k]) || Goes(n, run[k-1], run[k])
  }

  ghost predicate Ordered(n: nat, s: World) {
    && (forall i :: 0 <= i < |s| ==> Climbs(s[i].todo, s[i].held))
    && |Holders(s, Slot)| <= n
    && Exclusive(s)
  }

  predicate Both(s: World, i: nat, k: nat, l: Lock) {
    i < |s| && k < |s| && l in s[i].held && l in s[k].held
  }

  ghost predicate Exclusive(s: World) {
    forall i, k, l :: Both(s, i, k, l) && !l.Slot? ==> i == k
  }

  lemma BeginsKeepsOrder(n: nat, s: World, t: World)
    requires Ordered(n, s) && Begins(true, s, t)
    ensures Ordered(n, t)
  {
    var w :| RelayStaged(w) && t == s + [Task(ProgramOf(w), {})];
    EveryTaskClimbs(w);
    assert Holders(t, Slot) == Holders(s, Slot);
    forall i, k, l | Both(t, i, k, l) && !l.Slot? ensures i == k {
      assert Both(s, i, k, l);
    }
  }

  lemma GoingKeepsClimbing(t: Task)
    requires t.todo != [] && Climbs(t.todo, t.held)
    ensures Climbs(Moved(t).todo, Moved(t).held)
  {
  }

  lemma SlotsStayCounted(n: nat, s: World, i: nat)
    requires CanGo(n, s, i) && |Holders(s, Slot)| <= n
    ensures |Holders(s[i := Moved(s[i])], Slot)| <= n
  {
    var t, act := s[i := Moved(s[i])], s[i].todo[0];
    if act == Take(Slot) {
      assert Holders(t, Slot) == Holders(s, Slot) + {i};
    } else {
      assert Holders(t, Slot) <= Holders(s, Slot);
      SmallerSet(Holders(t, Slot), Holders(s, Slot));
    }
  }

  lemma LocksStayExclusive(n: nat, s: World, i: nat)
    requires CanGo(n, s, i) && Exclusive(s)
    ensures Exclusive(s[i := Moved(s[i])])
  {
    var t, act := s[i := Moved(s[i])], s[i].todo[0];
    forall j, k, l | Both(t, j, k, l) && !l.Slot? ensures j == k {
      if act == Take(l) {
        assert j in Holders(s, l) || k in Holders(s, l) || j == k;
      } else {
        assert Both(s, j, k, l);
      }
    }
  }

  lemma GoesKeepsOrder(n: nat, s: World, t: World)
    requires Ordered(n, s) && Goes(n, s, t)
    ensures Ordered(n, t)
  {
    hide Climbs, Exclusive, Holders;
    var i: nat :| CanGo(n, s, i) && t == s[i := Moved(s[i])];
    GoingKeepsClimbing(s[i]);
    SlotsStayCounted(n, s, i);
    LocksStayExclusive(n, s, i);
  }

  lemma {:induction false} RunsStayOrdered(n: nat, run: seq<World>, k: nat)
    requires Run(n, true, run) && k < |run|
    ensures Ordered(n, run[k])
  {
    if k > 0 {
      RunsStayOrdered(n, run, k - 1);
      if Begins(true, run[k-1], run[k]) {
        BeginsKeepsOrder(n, run[k-1], run[k]);
      } else {
        GoesKeepsOrder(n, run[k-1], run[k]);
      }
    } else {
      assert Holders(run[0], Slot) == {};
    }
  }

  /** Two tasks never hold the same peer or history lock, and never more than `n` a slot. */
  lemma LocksExclude(n: nat, run: seq<World>, k: nat, i: nat, j: nat, l: Lock)
    requires Run(n, true, run) && k < |run| && i < j < |run[k]|
    ensures |Holders(run[k], Slot)| <= n
    ensures l in run[k][i].held && l in run[k][j].held ==> l.Slot?
  {
    RunsStayOrdered(n, run, k);
    assert l in run[k][i].held && l in run[k][j].held ==> Both(run[k], i, j, l);
  }

  lemma SomeoneHolds(n: nat, s: World, l: Lock) returns (holder: nat)
    requires n >= 1 && !Free(n, s, l)
    ensures holder < |s| && l in s[holder].held
  {
    assert Holders(s, l) != {};
    holder :| holder in Holders(s, l);
  }

  /** Follow who waits for whom: each holder wants something of a higher rank, so the chain ends at one that can go. */
  lemma {:induction false} ChainEnds(n: nat, s: World, i: nat) returns (waiter: nat, holder: nat)
    requires n >= 1 && Ordered(n, s) && Waits(n, s, i)
    ensures Waits(n, s, waiter) && holder < |s| && s[waiter].todo[0].lock in s[holder].held
    ensures CanGo(n, s, holder)
    decreases 2 - Rank(s[i].todo[0].lock)
  {
    var next := SomeoneHolds(n, s, s[i].todo[0].lock);
    assert Climbs(s[next].todo, s[next].held);
    if Waits(n, s, next) {
      waiter, holder := ChainEnds(n, s, next);
    } else {
      waiter, holder := i, next;
    }
  }

  /** In every reachable state, when someone waits, some holder of a waited-for lock is itself not waiting. */
  lemma SomeHolderIsNotWaiting(n: nat, run: seq<World>, k: nat, i: nat) returns (waiter: nat, holder: nat)
    requires n >= 1 && Run(n, true, run) && k < |run| && Waits(n, run[k], i)
    ensures Waits(n, run[k], waiter) && CanGo(n, run[k], holder)
    ensures run[k][waiter].todo[0].lock in run[k][holder].held
  {
    RunsStayOrdered(n, run, k);
    waiter, holder := ChainEnds(n, run[k], i);
  }

  // ------------------------------------------------------------------ everyone finishes

  function Left(s: World): nat {
    if s == [] then 0 else |s[0].todo| + Left(s[1..])
  }

  lemma {:induction false} GoingLeavesLess(s: World, i: nat)
    requires Unfinished(s, i)
    ensures Left(s[i := Moved(s[i])]) == Left(s) - 1
  {
    if i > 0 {
      GoingLeavesLess(s[1..], i - 1);
      assert s[i := Moved(s[i])][1..] == s[1..][i - 1 := Moved(s[i])];
    } else {
      assert s[0 := Moved(s[0])][1..] == s[1..];
    }
  }

  lemma {:induction false} NothingLeft(s: World)
    ensures Left(s) == 0 <==> forall i :: 0 <= i < |s| ==> s[i].todo == []
  {
    if s != [] {
      NothingLeft(s[1..]);
      assert forall i :: 0 < i < |s| ==> s[i] == s[1..][i-1];
    }
  }

  lemma SomeoneCanGo(n: nat, s: World) returns (i: nat)
    requires n >= 1 && Ordered(n, s) && Left(s) > 0
    ensures CanGo(n, s, i)
  {
    NothingLeft(s);
    var k :| 0 <= k < |s| && s[k].todo != [];
    if Waits(n, s, k) {
      var _, holder := ChainEnds(n, s, k);
      return holder;
    }
    return k;
  }

  /** Steps taken from a state, none of them a new task. */
  ghost predicate Continues(n: nat, from_: World, run: seq<World>) {
    run != [] && run[0] == from_ && forall k :: 0 < k < |run| ==> Goes(n, run[k-1], run[k])
  }

  predicate AllDone(s: World) {
    forall i :: 0 <= i < |s| ==> s[i].todo == []
  }

  ghost predicate Stopped(n: nat, s: World) {
    forall i: nat :: !CanGo(n, s, i)
  }

  lemma StoppedIsDone(n: nat, s: World)
    requires n >= 1 && Ordered(n, s)
    ensures Stopped(n, s) <==> AllDone(s)
  {
    NothingLeft(s);
    if Left(s) > 0 {
      var i := SomeoneCanGo(n, s);
    }
  }

  /**
   No deadlock: however the tasks so far are scheduled, each step leaves one less, and nobody can go only once every
   task is done. So any schedule that goes on while it can finishes them all.
   */
  lemma {:induction false} SchedulesFinish(n: nat, s: World, run: seq<World>)
    requires n >= 1 && Ordered(n, s) && Continues(n, s, run)
    ensures var last := run[|run|-1];
            Left(last) == Left(s) - (|run| - 1) && Ordered(n, last) && (Stopped(n, last) <==> AllDone(last))
    decreases |run|
  {
    hide Ordered, Stopped, AllDone;
    var last := run[|run|-1];
    if |run| > 1 {
      var before, short := run[|run|-2], run[..|run|-1];
      assert short[|short|-1] == before;
      SchedulesFinish(n, s, short);
      assert Goes(n, before, last);
      var i: nat :| CanGo(n, before, i) && last == before[i := Moved(before[i])];
      GoingLeavesLess(before, i);
      GoesKeepsOrder(n, before, last);
    }
    StoppedIsDone(n, last);
  }

  // ------------------------------------------------------------------ why relay has to be staged

  function TalkRelaying(number: string, agent: string, other: string): Work {
    Inbound(number, Talk(agent, [ToolCall("c", RELAY_TOOL, "")], other))
  }

  /** What is left of such a turn once its peer lock, its slot and its own history are taken. */
  function Stuck(number: string, agent: string, other: string): Task {
    Task([Take(History(other)), Give(History(other)), Give(History(agent)), Give(Slot), Give(Peer(number))],
         {Peer(number), Slot, History(agent)})
  }

  lemma RunOn(n: nat, staged: bool, run: seq<World>, t: World)
    requires Run(n, staged, run) && (Begins(staged, run[|run|-1], t) || Goes(n, run[|run|-1], t))
    ensures Run(n, staged, run + [t])
  {
  }

  /** One such turn begins and takes its first three locks while they are free. */
  lemma TalkClimbs(n: nat, run: seq<World>, number: string, agent: string, other: string) returns (more: seq<World>)
    requires Run(n, false, run)
    requires var s := run[|run|-1];
             |Holders(s, Slot)| < n && Holders(s, Peer(number)) == {} && Holders(s, History(agent)) == {}
    ensures Run(n, false, more) && more[|more|-1] == run[|run|-1] + [Stuck(number, agent, other)]
  {
    var s, w := run[|run|-1], TalkRelaying(number, agent, other);
    var i, p, q := |s|, ProgramOf(w), Stuck(number, agent, other).todo;
    TalkProgram(number, agent, other);
    var s1 := s + [Task(p, {})];
    var s2 := s + [Task(p[1..], {Peer(number)})];
    var s3 := s + [Task(p[2..], {Peer(number), Slot})];
    var s4 := s + [Stuck(number, agent, other)];
    assert Begins(false, s, s1);
    LastGoes(n, s, Task(p, {}), Task(p[1..], {Peer(number)}));
    LastGoes(n, s, Task(p[1..], {Peer(number)}), Task(p[2..], {Peer(number), Slot}));
    LastGoes(n, s, Task(p[2..], {Peer(number), Slot}), Stuck(number, agent, other));
    RunOn(n, false, run, s1);
    RunOn(n, false, run + [s1], s2);
    RunOn(n, false, run + [s1] + [s2], s3);
    RunOn(n, false, run + [s1] + [s2] + [s3], s4);
    more := run + [s1] + [s2] + [s3] + [s4];
  }

  lemma LastGoes(n: nat, s: World, t: Task, u: Task)
    requires t.todo != [] && t.todo[0].Take? && u == Moved(t) && t.todo[0].lock !in t.held
    requires Free(n, s, t.todo[0].lock)
    ensures Goes(n, s + [t], s + [u])
  {
    var w := s + [t];
    assert Holders(w, t.todo[0].lock) == Holders(s, t.todo[0].lock);
    assert CanGo(n, w, |s|) && s + [u] == w[|s| := Moved(w[|s|])];
  }

  lemma TalkProgram(number: string, agent: string, other: string)
    ensures var p := ProgramOf(TalkRelaying(number, agent, other));
            && |p| == 8 && p[0] == Take(Peer(number)) && p[1] == Take(Slot) && p[2] == Take(History(agent))
            && p[3..] == Stuck(number, agent, other).todo
  {
    var ran := [ToolCall("c", RELAY_TOOL, "")];
    assert ran[1..] == [];
    assert Relays(ran, other) == Touch(other);
  }

  /** Were a relay run inside the turn, two people relaying to each other could stop both for good. */
  lemma NestedRelaysDeadlock(n: nat) returns (run: seq<World>)
    requires n >= 2
    ensures Run(n, false, run) && |run[|run|-1]| == 2
    ensures Waits(n, run[|run|-1], 0) && Waits(n, run[|run|-1], 1)
  {
    var none: World := [];
    assert Holders(none, Slot) == {} && Holders(none, Peer("1")) == {} && Holders(none, History("a")) == {};
    run := TalkClimbs(n, [none], "1", "a", "b");
    var one := run[|run|-1];
    assert Holders(one, Slot) == {0} && Holders(one, Peer("2")) == {} && Holders(one, History("b")) == {};
    run := TalkClimbs(n, run, "2", "b", "a");
    var two := run[|run|-1];
    assert 1 in Holders(two, History("b")) && 0 in Holders(two, History("a"));
  }
}
