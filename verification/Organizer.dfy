/** The one process that reads or writes household lists, and what its checks keep true of the tables. */
module Organizer {
  import opened Wrappers
  import opened Names
  import opened Lists

  datatype Grants = Grants(name: string, readsOwn: bool, readsShared: bool, writesOwn: bool, writesShared: bool)

  /** A named lookup stays inside one scope, so the other person's names do not leak. */
  predicate Visible(a: Grants, owner: Option<string>, private: bool, named: bool) {
    if named && private then owner == Some(a.name) && a.readsOwn
    else if named then owner == None && a.readsShared
    else if private then owner == Some(a.name) && a.readsOwn
    else if owner == None then a.readsShared
    else owner == Some(a.name) && a.readsOwn
  }

  function Select(lists: seq<TodoList>, keep: TodoList -> bool): seq<TodoList> {
    if lists == [] then []
    else (if keep(lists[0]) then [lists[0]] else []) + Select(lists[1..], keep)
  }

  function VisibleTo(lists: seq<TodoList>, a: Grants, private: bool, named: bool): seq<TodoList> {
    Select(lists, (l: TodoList) => Visible(a, l.owner, private, named))
  }

  function NamedIn(rows: seq<TodoList>, name: string): seq<TodoList> {
    Select(rows, (l: TodoList) => Fold(l.name) == Fold(name))
  }

  // ------------------------------------------------------------------ read

  /** The rows an agent is shown, or why not. */
  function Shown(lists: seq<TodoList>, a: Grants, name: string, private: bool): Result<seq<TodoList>, Refusal> {
    if !a.readsShared && !a.readsOwn then Failure(NotAllowed)
    else
      var rows := VisibleTo(lists, a, private, name != "");
      if name == "" then Success(rows)
      else if NamedIn(rows, name) == [] then Failure(Missing)
      else Success(NamedIn(rows, name))
  }

  method Read(store: ListStore, a: Grants, name: string, private: bool) returns (r: Result<seq<TodoList>, Refusal>)
    ensures r == Shown(store.lists, a, name, private) || r == Failure(Unavailable)
  {
    if !a.readsShared && !a.readsOwn {
      return Failure(NotAllowed);
    }
    var snapshot := store.Snapshot();
    if snapshot.Failure? {
      return Failure(Unavailable);
    }
    var rows := VisibleTo(snapshot.value, a, private, name != "");
    if name != "" {
      rows := NamedIn(rows, name);
      if rows == [] {
        return Failure(Missing);
      }
    }
    return Success(rows);
  }

  lemma {:induction false} SelectsThose(lists: seq<TodoList>, keep: TodoList -> bool, l: TodoList)
    ensures l in Select(lists, keep) <==> l in lists && keep(l)
  {
    if lists != [] {
      SelectsThose(lists[1..], keep, l);
      assert l in lists <==> l == lists[0] || l in lists[1..];
    }
  }

  /**
   What an agent is shown: everyone's lists if it may read those and its own if it may read those; a private request
   only its own, and a request by name only that name, among everyone's unless it is private.
   */
  lemma ShownAreReadable(lists: seq<TodoList>, a: Grants, name: string, private: bool, l: TodoList)
    requires Shown(lists, a, name, private).Success?
    ensures l in Shown(lists, a, name, private).value <==>
              && l in lists
              && ((l.owner == None && a.readsShared) || (l.owner == Some(a.name) && a.readsOwn))
              && (private ==> l.owner == Some(a.name))
              && (name != "" ==> Fold(l.name) == Fold(name) && (!private ==> l.owner == None))
  {
    var rows := VisibleTo(lists, a, private, name != "");
    SelectsThose(lists, (r: TodoList) => Visible(a, r.owner, private, name != ""), l);
    SelectsThose(rows, (r: TodoList) => Fold(r.name) == Fold(name), l);
  }

  /** Everything but the private lists of others. */
  function Household(lists: seq<TodoList>, name: string): seq<TodoList> {
    Select(lists, (l: TodoList) => l.owner == None || l.owner == Some(name))
  }

  lemma {:induction false} SelectTwice(lists: seq<TodoList>, keep: TodoList -> bool, more: TodoList -> bool)
    requires forall l :: keep(l) ==> more(l)
    ensures Select(Select(lists, more), keep) == Select(lists, keep)
  {
    if lists != [] {
      SelectTwice(lists[1..], keep, more);
      if more(lists[0]) {
        assert Select(lists, more)[1..] == Select(lists[1..], more);
      } else {
        assert Select(lists, more) == Select(lists[1..], more);
      }
    }
  }

  /** What one agent reads does not depend on another agent's private lists. */
  lemma ReadsIgnoreOthers(one: seq<TodoList>, two: seq<TodoList>, a: Grants, name: string, private: bool)
    requires Household(one, a.name) == Household(two, a.name)
    ensures Shown(one, a, name, private) == Shown(two, a, name, private)
  {
    var keep := (l: TodoList) => Visible(a, l.owner, private, name != "");
    var more := (l: TodoList) => l.owner == None || l.owner == Some(a.name);
    SelectTwice(one, keep, more);
    SelectTwice(two, keep, more);
  }

  // ------------------------------------------------------------------ apply

  predicate MayWrite(a: Grants, c: Change) {
    (c.private || c.share ==> a.writesOwn) && (c.share || !c.private ==> a.writesShared)
  }

  function OpenKeys(items: seq<Item>): set<string> {
    set i | 0 <= i < |items| && !items[i].done :: Fold(items[i].text)
  }

  /** Why the organizer refuses before it writes, going by what this agent can see. */
  function Refused(lists: seq<TodoList>, a: Grants, c: Change): Option<Refusal> {
    var rows := VisibleTo(lists, a, c.private || c.share, true);
    var hits := NamedIn(rows, c.name);
    if !MayWrite(a, c) then Some(NotAllowed)
    else if c.share then
      if hits == [] || hits[0].owner != Some(a.name) then Some(Missing)
      else if |Select(lists, (l: TodoList) => l.owner == None)| >= MAX_LISTS then Some(TooManyLists)
      else None
    else if hits == [] then
      if c.add == [] || c.done != [] || c.remove != [] then Some(Missing)
      else if |Select(rows, (l: TodoList) => l.owner.None? == !c.private)| >= MAX_LISTS then Some(TooManyLists)
      else None
    else
      var opening := OpenKeys(hits[0].items);
      var closing := Keys(c.done + c.remove);
      if |opening| - |opening * closing| + |c.add| > MAX_OPEN then Some(TooManyOpen) else None
  }

  method Apply(store: ListStore, a: Grants, c: Change) returns (refusal: Option<Refusal>)
    modifies store
    ensures refusal.None? ==>
              Refused(old(store.lists), a, c).None? && Written(old(store.lists), c, a.name) == Some(store.lists)
    ensures refusal.None? ==>
              && (c.share ==> a.writesOwn && a.writesShared)
              && (!c.share ==> if c.private then a.writesOwn else a.writesShared)
    ensures refusal.Some? ==> store.lists == old(store.lists)
    ensures refusal.Some? && refusal != Some(Unavailable) ==>
              Refused(old(store.lists), a, c).Some? || Written(old(store.lists), c, a.name).None?
  {
    if !MayWrite(a, c) {
      return Some(NotAllowed);
    }
    var snapshot := store.Snapshot();
    if snapshot.Failure? {
      return Some(Unavailable);
    }
    var rows := VisibleTo(snapshot.value, a, c.private || c.share, true);
    var hits := NamedIn(rows, c.name);
    if c.share {
      if hits == [] || hits[0].owner != Some(a.name) {
        return Some(Missing);
      }
      snapshot := store.Snapshot();
      if snapshot.Failure? {
        return Some(Unavailable);
      }
      if |Select(snapshot.value, (l: TodoList) => l.owner == None)| >= MAX_LISTS {
        return Some(TooManyLists);
      }
    } else if hits == [] {
      if c.add == [] || c.done != [] || c.remove != [] {
        return Some(Missing);
      }
      if |Select(rows, (l: TodoList) => l.owner.None? == !c.private)| >= MAX_LISTS {
        return Some(TooManyLists);
      }
    } else {
      var opening, closing := OpenKeys(hits[0].items), Keys(c.done + c.remove);
      if |opening| - |opening * closing| + |c.add| > MAX_OPEN {
        return Some(TooManyOpen);
      }
    }
    refusal := store.ApplyShared(c, a.name);
  }
}
