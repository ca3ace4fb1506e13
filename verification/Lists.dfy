/** Household lists: the change a model may ask for, and the tables it lands in. */
module Lists {
  import opened Wrappers
  import opened Names

  datatype Item = Item(text: string, done: bool)

  /** A list without an owner is everyone's. */
  datatype TodoList = TodoList(name: string, owner: Option<string>, items: seq<Item>)

  datatype Change = Change(
    name: string,
    add: seq<string>,
    done: seq<string>,
    remove: seq<string>,
    private: bool,
    share: bool)

  datatype Refusal =
    | BadName | BadFlags | BadItem | ListedTwice | ShareAlone | Overlap | NothingToDo | TooManyItems
    | NotAllowed | Missing | TooManyLists | TooManyOpen
    | NotOpen | NotThere | AlreadyThere | NameShared | Unavailable

  const MAX_ITEMS := 20
  const MAX_ITEM_CHARS := 120
  const MAX_LISTS := 30
  const MAX_OPEN := 50

  // ------------------------------------------------------------------ parsing a change

  predicate IsNameStart(c: char) {
    'A' <= c <= 'Z' || 'a' <= c <= 'z' || '0' <= c <= '9'
  }

  predicate IsListName(s: string) {
    1 <= |s| <= 40 && IsNameStart(s[0]) && forall i :: 0 < i < |s| ==> IsNameStart(s[i]) || s[i] in " .'-"
  }

  /** Texts compared the way a list compares them. */
  function Keys(texts: seq<string>): set<string> {
    set i | 0 <= i < |texts| :: Fold(texts[i])
  }

  predicate DistinctKeys(texts: seq<string>) {
    forall i, k :: 0 <= i < k < |texts| ==> Fold(texts[i]) != Fold(texts[k])
  }

  predicate Usable(text: string) { 0 < |text| <= MAX_ITEM_CHARS }

  predicate GoodItems(texts: seq<string>) {
    (forall i :: 0 <= i < |texts| ==> Usable(texts[i])) && DistinctKeys(texts)
  }

  /** One item, one operation. */
  predicate NoOverlap(c: Change) {
    Keys(c.add) !! Keys(c.done) && Keys(c.add) !! Keys(c.remove) && Keys(c.done) !! Keys(c.remove)
  }

  lemma KeysAreFolded(texts: seq<string>, i: nat)
    requires i < |texts|
    ensures Fold(texts[i]) in Keys(texts)
  {
  }

  /** No text is named for two operations, whatever its capitals. */
  lemma OneItemOneOperation(c: Change)
    ensures NoOverlap(c) <==>
              && (forall i, k :: 0 <= i < |c.add| && 0 <= k < |c.done| ==> Fold(c.add[i]) != Fold(c.done[k]))
              && (forall i, k :: 0 <= i < |c.add| && 0 <= k < |c.remove| ==> Fold(c.add[i]) != Fold(c.remove[k]))
              && (forall i, k :: 0 <= i < |c.done| && 0 <= k < |c.remove| ==> Fold(c.done[i]) != Fold(c.remove[k]))
  {
    Disjoint(c.add, c.done);
    Disjoint(c.add, c.remove);
    Disjoint(c.done, c.remove);
  }

  lemma Disjoint(a: seq<string>, b: seq<string>)
    ensures Keys(a) !! Keys(b) <==> forall i, k :: 0 <= i < |a| && 0 <= k < |b| ==> Fold(a[i]) != Fold(b[k])
  {
    if Keys(a) !! Keys(b) {
      forall i, k | 0 <= i < |a| && 0 <= k < |b| ensures Fold(a[i]) != Fold(b[k]) {
        KeysAreFolded(a, i);
        KeysAreFolded(b, k);
      }
    }
  }

  predicate WellMade(c: Change) {
    && IsListName(c.name)
    && !(c.private && c.share)
    && GoodItems(c.add) && GoodItems(c.done) && GoodItems(c.remove)
    && NoOverlap(c)
    && (c.share <==> c.add == [] && c.done == [] && c.remove == [])
    && |c.add| + |c.done| + |c.remove| <= MAX_ITEMS
  }

  /** The texts of one field, their inner space already squeezed. */
  method Items(texts: seq<string>) returns (r: Result<seq<string>, Refusal>)
    ensures r.Success? <==> GoodItems(texts)
    ensures r.Success? ==> r.value == texts
  {
    var found: seq<string>, seen: set<string> := [], {};
    for i := 0 to |texts|
      invariant found == texts[..i] && GoodItems(found)
      invariant forall key :: key in seen <==> exists k :: 0 <= k < i && Fold(texts[k]) == key
    {
      if !Usable(texts[i]) {
        return Failure(BadItem);
      }
      var key := Fold(texts[i]);
      if key in seen {
        return Failure(ListedTwice);
      }
      seen := seen + {key};
      found := found + [texts[i]];
    }
    return Success(found);
  }

  method ParseChange(asked: Change) returns (r: Result<Change, Refusal>)
    ensures r.Success? <==> WellMade(asked)
    ensures r.Success? ==> r.value == asked
  {
    if !IsListName(asked.name) {
      return Failure(BadName);
    }
    if asked.private && asked.share {
      return Failure(BadFlags);
    }
    var add := Items(asked.add);
    if add.Failure? {
      return Failure(add.error);
    }
    var done := Items(asked.done);
    if done.Failure? {
      return Failure(done.error);
    }
    var remove := Items(asked.remove);
    if remove.Failure? {
      return Failure(remove.error);
    }
    var nothing := add.value == [] && done.value == [] && remove.value == [];
    if asked.share && !nothing {
      return Failure(ShareAlone);
    }
    if !NoOverlap(asked) {
      return Failure(Overlap);
    }
    if !asked.share && nothing {
      return Failure(NothingToDo);
    }
    if |add.value| + |done.value| + |remove.value| > MAX_ITEMS {
      return Failure(TooManyItems);
    }
    return Success(Change(asked.name, add.value, done.value, remove.value, asked.private, asked.share));
  }

  // ------------------------------------------------------------------ what a change does to the items of a list

  predicate HasKey(items: seq<Item>, key: string) {
    exists i :: 0 <= i < |items| && Fold(items[i].text) == key
  }

  predicate HasOpen(items: seq<Item>, key: string) {
    exists i :: 0 <= i < |items| && !items[i].done && Fold(items[i].text) == key
  }

  function DropKey(items: seq<Item>, key: string): seq<Item> {
    if items == [] then []
    else (if Fold(items[0].text) == key then [] else [items[0]]) + DropKey(items[1..], key)
  }

  /** Check off the first open item of that key. */
  function CheckOff(items: seq<Item>, key: string): seq<Item> {
    if items == [] then []
    else if !items[0].done && Fold(items[0].text) == key then [items[0].(done := true)] + items[1..]
    else [items[0]] + CheckOff(items[1..], key)
  }

  function DropAll(items: seq<Item>, texts: seq<string>): seq<Item>
    decreases |texts|
  {
    if texts == [] then items else DropAll(DropKey(items, Fold(texts[0])), texts[1..])
  }

  function CheckAll(items: seq<Item>, texts: seq<string>): seq<Item>
    decreases |texts|
  {
    if texts == [] then items else CheckAll(CheckOff(items, Fold(texts[0])), texts[1..])
  }

  function Opened(texts: seq<string>): seq<Item> {
    seq(|texts|, i requires 0 <= i < |texts| => Item(texts[i], false))
  }

  function Changed(items: seq<Item>, c: Change): seq<Item> {
    CheckAll(DropAll(items, c.remove), c.done) + Opened(c.add)
  }

  /** Why the table refuses: every item named must be where the change says it is. */
  predicate ItemsFit(items: seq<Item>, c: Change) {
    && (forall i :: 0 <= i < |c.done| ==> HasOpen(items, Fold(c.done[i])))
    && (forall i :: 0 <= i < |c.remove| ==> HasKey(items, Fold(c.remove[i])))
    && (forall i :: 0 <= i < |c.add| ==> !HasOpen(items, Fold(c.add[i])))
  }

  method CheckItems(items: seq<Item>, c: Change) returns (refusal: Option<Refusal>)
    ensures refusal.None? <==> ItemsFit(items, c)
  {
    for i := 0 to |c.done|
      invariant forall k :: 0 <= k < i ==> HasOpen(items, Fold(c.done[k]))
    {
      if !HasOpen(items, Fold(c.done[i])) {
        return Some(NotOpen);
      }
    }
    for i := 0 to |c.remove|
      invariant forall k :: 0 <= k < i ==> HasKey(items, Fold(c.remove[k]))
    {
      if !HasKey(items, Fold(c.remove[i])) {
        return Some(NotThere);
      }
    }
    for i := 0 to |c.add|
      invariant forall k :: 0 <= k < i ==> !HasOpen(items, Fold(c.add[k]))
    {
      if HasOpen(items, Fold(c.add[i])) {
        return Some(AlreadyThere);
      }
    }
    return None;
  }

  method ChangeItems(items: seq<Item>, c: Change) returns (after: seq<Item>)
    ensures after == Changed(items, c)
  {
    after := items;
    for i := 0 to |c.remove|
      invariant DropAll(after, c.remove[i..]) == DropAll(items, c.remove)
    {
      after := DropKey(after, Fold(c.remove[i]));
    }
    ghost var kept := after;
    for i := 0 to |c.done|
      invariant CheckAll(after, c.done[i..]) == CheckAll(kept, c.done)
    {
      after := CheckOff(after, Fold(c.done[i]));
    }
    ghost var checked := after;
    for i := 0 to |c.add|
      invariant after == checked + Opened(c.add[..i])
    {
      after := after + [Item(c.add[i], false)];
      assert Opened(c.add[..i+1]) == Opened(c.add[..i]) + [Item(c.add[i], false)];
    }
    assert c.add[..|c.add|] == c.add;
  }

  // ------------------------------------------------------------------ the tables

  /** Where the list of that name is in that scope; the length when there is none. */
  function Find(lists: seq<TodoList>, name: string, owner: Option<string>): (i: nat)
    ensures i <= |lists|
    ensures i < |lists| ==> lists[i].owner == owner && Fold(lists[i].name) == Fold(name)
  {
    if lists == [] then 0
    else if lists[0].owner == owner && Fold(lists[0].name) == Fold(name) then 0
    else 1 + Find(lists[1..], name, owner)
  }

  /** The write a change asks for. None when the table refuses it. */
  function Written(lists: seq<TodoList>, c: Change, actor: string): Option<seq<TodoList>> {
    if c.share then
      var i := Find(lists, c.name, Some(actor));
      if i == |lists| || Find(lists, c.name, None) < |lists| then None
      else Some(lists[i := lists[i].(owner := None)])
    else
      var owner := if c.private then Some(actor) else None;
      var i := Find(lists, c.name, owner);
      if i == |lists| then
        if c.done != [] || c.remove != [] || c.add == [] then None
        else Some(lists + [TodoList(c.name, owner, Changed([], c))])
      else
        if ItemsFit(lists[i].items, c) then Some(lists[i := lists[i].(items := Changed(lists[i].items, c))]) else None
  }

  lemma {:induction false} FindIsFirst(lists: seq<TodoList>, name: string, owner: Option<string>, k: nat)
    requires k < Find(lists, name, owner)
    ensures !(lists[k].owner == owner && Fold(lists[k].name) == Fold(name))
  {
    if k > 0 {
      FindIsFirst(lists[1..], name, owner, k - 1);
    }
  }

  /** Nobody has a list of that name in that scope. */
  predicate Free(lists: seq<TodoList>, name: string, owner: Option<string>) {
    forall k :: 0 <= k < |lists| ==> !(lists[k].owner == owner && Fold(lists[k].name) == Fold(name))
  }

  lemma FreeIsNotFound(lists: seq<TodoList>, name: string, owner: Option<string>)
    ensures Find(lists, name, owner) == |lists| <==> Free(lists, name, owner)
  {
    if Find(lists, name, owner) == |lists| {
      forall k | 0 <= k < |lists| ensures !(lists[k].owner == owner && Fold(lists[k].name) == Fold(name)) {
        FindIsFirst(lists, name, owner, k);
      }
    }
  }

  /**
   A change writes one list and leaves all others alone. Sharing hands the actor's own list over as it is. Any other
   change goes to the actor's own list if it is private and to everyone's if not, which is made when there is none.
   */
  lemma OneListIsWritten(lists: seq<TodoList>, c: Change, actor: string, after: seq<TodoList>) returns (i: nat)
    requires Written(lists, c, actor) == Some(after)
    ensures |lists| <= |after| && i < |after| && (forall k :: 0 <= k < |lists| && k != i ==> after[k] == lists[k])
    ensures |after| == if i < |lists| then |lists| else |lists| + 1
    ensures Fold(after[i].name) == Fold(c.name)
    ensures c.share ==>
              && i < |lists| && lists[i].owner == Some(actor) && Free(lists, c.name, None)
              && after[i].owner == None && after[i].name == lists[i].name && after[i].items == lists[i].items
    ensures !c.share ==> after[i].owner == if c.private then Some(actor) else None
    ensures !c.share && i < |lists| ==>
              && after[i].owner == lists[i].owner && after[i].name == lists[i].name
              && (forall k :: 0 <= k < |c.done| ==> HasOpen(lists[i].items, Fold(c.done[k])))
              && (forall k :: 0 <= k < |c.remove| ==> HasKey(lists[i].items, Fold(c.remove[k])))
              && (forall k :: 0 <= k < |c.add| ==> !HasOpen(lists[i].items, Fold(c.add[k])))
    ensures i == |lists| ==>
              && !c.share && after[i].name == c.name && c.add != [] && c.done == [] && c.remove == []
              && Free(lists, c.name, after[i].owner) && |after[i].items| == |c.add|
              && forall k :: 0 <= k < |c.add| ==> after[i].items[k] == Item(c.add[k], false)
  {
    var owner := if c.share then Some(actor) else if c.private then Some(actor) else None;
    i := Find(lists, c.name, owner);
    FreeIsNotFound(lists, c.name, owner);
    FreeIsNotFound(lists, c.name, None);
  }

  /** The list tables. A change is one transaction: whatever fails on the way, nothing stays. */
  class ListStore {
    var lists: seq<TodoList>

    constructor ()
      ensures lists == []
    {
      lists := [];
    }

    method Snapshot() returns (r: Result<seq<TodoList>, Refusal>)
      ensures r.Success? ==> r.value == lists
    {
      var fault: bool := *;
      return if fault then Failure(Unavailable) else Success(lists);
    }

    method ApplyShared(c: Change, actor: string) returns (refusal: Option<Refusal>)
      modifies this
      ensures refusal.None? ==> Written(old(lists), c, actor) == Some(lists)
      ensures refusal.Some? ==> lists == old(lists)
      ensures refusal.Some? && refusal != Some(Unavailable) ==> Written(old(lists), c, actor).None?
    {
      var before := lists;
      refusal := Write(c, actor);
      var fault: bool := *;
      if fault && refusal.None? {
        refusal := Some(Unavailable);
      }
      if refusal.Some? {
        lists := before;
      }
    }

    /** The statements inside the transaction. */
    method Write(c: Change, actor: string) returns (refusal: Option<Refusal>)
      modifies this
      ensures refusal.None? ==> Written(old(lists), c, actor) == Some(lists)
      ensures refusal.Some? ==> Written(old(lists), c, actor).None?
    {
      if c.share {
        var mine := Find(lists, c.name, Some(actor));
        if mine == |lists| {
          return Some(Missing);
        }
        if Find(lists, c.name, None) < |lists| {
          return Some(NameShared);
        }
        lists := lists[mine := lists[mine].(owner := None)];
        return None;
      }
      var owner := if c.private then Some(actor) else None;
      var i := Find(lists, c.name, owner);
      if i == |lists| {
        if c.done != [] || c.remove != [] || c.add == [] {
          return Some(Missing);
        }
        lists := lists + [TodoList(c.name, owner, [])];
      }
      refusal := CheckItems(lists[i].items, c);
      if refusal.None? {
        var items := ChangeItems(lists[i].items, c);
        lists := lists[i := lists[i].(items := items)];
        assert i == |old(lists)| ==> lists == old(lists) + [TodoList(c.name, owner, items)];
      }
    }
  }
}
