/** What every confirmed change keeps true of the household's lists. */
module ListLimits {
  import opened Wrappers
  import opened Names
  import opened Lists
  import opened Organizer
  import opened Collections

  predicate OpenDistinct(items: seq<Item>) {
    forall i, k :: 0 <= i < k < |items| && !items[i].done && !items[k].done ==>
      Fold(items[i].text) != Fold(items[k].text)
  }

  function OpenCount(items: seq<Item>): nat {
    if items == [] then 0 else (if items[0].done then 0 else 1) + OpenCount(items[1..])
  }

  function OwnedBy(lists: seq<TodoList>, owner: Option<string>): seq<TodoList> {
    Select(lists, (l: TodoList) => l.owner == owner)
  }

  predicate SameName(a: TodoList, b: TodoList) {
    a.owner == b.owner && Fold(a.name) == Fold(b.name)
  }

  predicate ListOk(l: TodoList) {
    OpenDistinct(l.items) && OpenCount(l.items) <= MAX_OPEN
  }

  /** Open items are distinct and few, names are unique in a scope, and a scope has few lists. */
  ghost predicate Bounded(lists: seq<TodoList>) {
    && (forall i :: 0 <= i < |lists| ==> ListOk(lists[i]))
    && (forall i, k :: 0 <= i < k < |lists| ==> !SameName(lists[i], lists[k]))
    && (forall owner :: |OwnedBy(lists, owner)| <= MAX_LISTS)
  }

  // ------------------------------------------------------------------ the items of one list

  lemma OpenCons(x: Item, s: seq<Item>)
    ensures OpenKeys([x] + s) == (if x.done then {} else {Fold(x.text)}) + OpenKeys(s)
    ensures OpenDistinct([x] + s) <==> OpenDistinct(s) && (x.done || Fold(x.text) !in OpenKeys(s))
  {
    var more := [x] + s;
    forall key ensures key in OpenKeys(more) <==> key in (if x.done then {} else {Fold(x.text)}) + OpenKeys(s) {
      if key in OpenKeys(s) {
        var i :| 0 <= i < |s| && !s[i].done && Fold(s[i].text) == key;
        assert more[i+1] == s[i];
      }
      if key in OpenKeys(more) {
        var i :| 0 <= i < |more| && !more[i].done && Fold(more[i].text) == key;
        assert i > 0 ==> s[i-1] == more[i];
      }
    }
    if OpenDistinct(more) {
      forall i, k | 0 <= i < k < |s| && !s[i].done && !s[k].done ensures Fold(s[i].text) != Fold(s[k].text) {
        assert more[i+1] == s[i] && more[k+1] == s[k];
      }
      forall k | 0 <= k < |s| && !s[k].done && !x.done ensures Fold(s[k].text) != Fold(x.text) {
        assert more[0] == x && more[k+1] == s[k];
      }
    }
  }

  lemma {:induction false} CountIsKeys(items: seq<Item>)
    requires OpenDistinct(items)
    ensures OpenCount(items) == |OpenKeys(items)|
  {
    if items != [] {
      assert items == [items[0]] + items[1..];
      OpenCons(items[0], items[1..]);
      CountIsKeys(items[1..]);
    }
  }

  lemma {:induction false} DropClosesOne(items: seq<Item>, key: string)
    requires OpenDistinct(items)
    ensures OpenDistinct(DropKey(items, key)) && OpenKeys(DropKey(items, key)) == OpenKeys(items) - {key}
  {
    if items != [] {
      var rest := DropKey(items[1..], key);
      assert items == [items[0]] + items[1..];
      OpenCons(items[0], items[1..]);
      DropClosesOne(items[1..], key);
      OpenCons(items[0], rest);
      assert [] + rest == rest;
    }
  }

  lemma {:induction false} CheckClosesOne(items: seq<Item>, key: string)
    requires OpenDistinct(items)
    ensures OpenDistinct(CheckOff(items, key)) && OpenKeys(CheckOff(items, key)) == OpenKeys(items) - {key}
  {
    if items != [] {
      var x, rest := items[0], items[1..];
      assert items == [x] + rest;
      OpenCons(x, rest);
      if !x.done && Fold(x.text) == key {
        OpenCons(x.(done := true), rest);
      } else {
        CheckClosesOne(rest, key);
        OpenCons(x, CheckOff(rest, key));
      }
    }
  }

  lemma KeysCons(texts: seq<string>)
    requires texts != []
    ensures Keys(texts) == {Fold(texts[0])} + Keys(texts[1..])
  {
    forall key ensures key in Keys(texts) <==> key in {Fold(texts[0])} + Keys(texts[1..]) {
      if key in Keys(texts[1..]) {
        var i :| 0 <= i < |texts[1..]| && Fold(texts[1..][i]) == key;
        assert texts[i+1] == texts[1..][i];
      }
      if key in Keys(texts) {
        var i :| 0 <= i < |texts| && Fold(texts[i]) == key;
        assert i > 0 ==> texts[1..][i-1] == texts[i];
      }
    }
  }

  lemma {:induction false} DropAllCloses(items: seq<Item>, texts: seq<string>)
    requires OpenDistinct(items)
    ensures OpenDistinct(DropAll(items, texts)) && OpenKeys(DropAll(items, texts)) == OpenKeys(items) - Keys(texts)
    decreases |texts|
  {
    if texts != [] {
      KeysCons(texts);
      DropClosesOne(items, Fold(texts[0]));
      DropAllCloses(DropKey(items, Fold(texts[0])), texts[1..]);
    }
  }

  lemma {:induction false} CheckAllCloses(items: seq<Item>, texts: seq<string>)
    requires OpenDistinct(items)
    ensures OpenDistinct(CheckAll(items, texts)) && OpenKeys(CheckAll(items, texts)) == OpenKeys(items) - Keys(texts)
    decreases |texts|
  {
    if texts != [] {
      KeysCons(texts);
      CheckClosesOne(items, Fold(texts[0]));
      CheckAllCloses(CheckOff(items, Fold(texts[0])), texts[1..]);
    }
  }

  lemma OpenedKeys(texts: seq<string>)
    requires DistinctKeys(texts)
    ensures OpenDistinct(Opened(texts)) && OpenKeys(Opened(texts)) == Keys(texts)
  {
    forall key ensures key in OpenKeys(Opened(texts)) <==> key in Keys(texts) {
      if key in Keys(texts) {
        var i :| 0 <= i < |texts| && Fold(texts[i]) == key;
        assert Opened(texts)[i] == Item(texts[i], false);
      }
    }
  }

  lemma {:induction false} OpenedAdds(items: seq<Item>, texts: seq<string>)
    requires OpenDistinct(items) && DistinctKeys(texts) && OpenKeys(items) !! Keys(texts)
    ensures OpenDistinct(items + Opened(texts)) && OpenKeys(items + Opened(texts)) == OpenKeys(items) + Keys(texts)
  {
    if items == [] {
      assert items + Opened(texts) == Opened(texts);
      OpenedKeys(texts);
    } else {
      var x, rest := items[0], items[1..];
      assert items == [x] + rest;
      assert items + Opened(texts) == [x] + (rest + Opened(texts));
      OpenCons(x, rest);
      OpenedAdds(rest, texts);
      OpenCons(x, rest + Opened(texts));
    }
  }

  lemma {:induction false} DistinctCount(texts: seq<string>)
    requires DistinctKeys(texts)
    ensures |Keys(texts)| == |texts|
  {
    if texts != [] {
      KeysCons(texts);
      DistinctCount(texts[1..]);
    }
  }

  lemma {:induction false} KeysJoin(a: seq<string>, b: seq<string>)
    ensures Keys(a + b) == Keys(a) + Keys(b)
  {
    if a == [] {
      assert a + b == b;
    } else {
      KeysCons(a);
      KeysCons(a + b);
      assert (a + b)[1..] == a[1..] + b;
      KeysJoin(a[1..], b);
    }
  }

  /** The open items after a change: those before, less what it closes, and what it adds; still distinct. */
  lemma ChangedOpenItems(items: seq<Item>, c: Change)
    requires OpenDistinct(items) && WellMade(c) && ItemsFit(items, c)
    ensures OpenDistinct(Changed(items, c))
    ensures OpenKeys(Changed(items, c)) == OpenKeys(items) - Keys(c.done + c.remove) + Keys(c.add)
    ensures OpenCount(Changed(items, c)) == |OpenKeys(items)| - |OpenKeys(items) * Keys(c.done + c.remove)| + |c.add|
  {
    hide OpenDistinct, OpenKeys, Keys, DistinctKeys;
    var kept, closing := CheckAll(DropAll(items, c.remove), c.done), Keys(c.done + c.remove);
    DropAllCloses(items, c.remove);
    CheckAllCloses(DropAll(items, c.remove), c.done);
    KeysJoin(c.done, c.remove);
    AddsAreNew(items, c);
    OpenedAdds(kept, c.add);
    DistinctCount(c.add);
    CountIsKeys(Changed(items, c));
    assert OpenKeys(kept) == OpenKeys(items) - closing;
    assert (OpenKeys(items) - closing) + (OpenKeys(items) * closing) == OpenKeys(items);
  }

  lemma AddsAreNew(items: seq<Item>, c: Change)
    requires ItemsFit(items, c)
    ensures OpenKeys(items) !! Keys(c.add)
  {
    forall key | key in OpenKeys(items) ensures key !in Keys(c.add) {
      assert HasOpen(items, key);
    }
  }

  /** The items of one key, in order. */
  function OfKey(items: seq<Item>, key: string): seq<Item> {
    if items == [] then [] else (if Fold(items[0].text) == key then [items[0]] else []) + OfKey(items[1..], key)
  }

  lemma {:induction false} OfKeyJoin(a: seq<Item>, b: seq<Item>, key: string)
    ensures OfKey(a + b, key) == OfKey(a, key) + OfKey(b, key)
  {
    if a == [] {
      assert a + b == b;
    } else {
      var rest := a[1..];
      assert (a + b)[1..] == rest + b && (a + b)[0] == a[0];
      OfKeyJoin(rest, b, key);
      JoinTwice(if Fold(a[0].text) == key then [a[0]] else [], OfKey(rest, key), OfKey(b, key));
    }
  }

  lemma {:induction false} DropSpares(items: seq<Item>, texts: seq<string>, key: string)
    ensures OfKey(DropAll(items, texts), key) == if key in Keys(texts) then [] else OfKey(items, key)
    decreases |texts|
  {
    if texts != [] {
      KeysCons(texts);
      DropOneSpares(items, Fold(texts[0]), key);
      DropSpares(DropKey(items, Fold(texts[0])), texts[1..], key);
    }
  }

  lemma {:induction false} DropOneSpares(items: seq<Item>, gone: string, key: string)
    ensures OfKey(DropKey(items, gone), key) == if key == gone then [] else OfKey(items, key)
  {
    if items != [] {
      DropOneSpares(items[1..], gone, key);
      OfKeyJoin(if Fold(items[0].text) == gone then [] else [items[0]], DropKey(items[1..], gone), key);
    }
  }

  lemma {:induction false} CheckOneSpares(items: seq<Item>, gone: string, key: string)
    ensures OfKey(CheckOff(items, gone), key) ==
              if key == gone then CheckOff(OfKey(items, key), key) else OfKey(items, key)
  {
    if items != [] {
      CheckOneSpares(items[1..], gone, key);
      if !items[0].done && Fold(items[0].text) == gone {
        OfKeyJoin([items[0].(done := true)], items[1..], key);
      } else {
        OfKeyJoin([items[0]], CheckOff(items[1..], gone), key);
        var rest := OfKey(items[1..], key);
        assert OfKey([items[0]], key) == if Fold(items[0].text) == key then [items[0]] else [];
        assert OfKey(items, key) == if Fold(items[0].text) == key then [items[0]] + rest else rest;
        assert ([items[0]] + rest)[1..] == rest;
      }
    }
  }

  lemma {:induction false} CheckSpares(items: seq<Item>, texts: seq<string>, key: string)
    requires DistinctKeys(texts)
    ensures OfKey(CheckAll(items, texts), key) ==
              if key in Keys(texts) then CheckOff(OfKey(items, key), key) else OfKey(items, key)
    decreases |texts|
  {
    if texts != [] {
      KeysCons(texts);
      CheckOneSpares(items, Fold(texts[0]), key);
      CheckSpares(CheckOff(items, Fold(texts[0])), texts[1..], key);
    }
  }

  lemma {:induction false} OpenedOfKey(texts: seq<string>, key: string)
    ensures key !in Keys(texts) ==> OfKey(Opened(texts), key) == []
  {
    if texts != [] {
      KeysCons(texts);
      OpenedOfKey(texts[1..], key);
      assert Opened(texts)[1..] == Opened(texts[1..]);
    }
  }

  /** One operation an item: removed ones are gone, checked ones have their open row checked, the rest are untouched. */
  lemma ChangedByKey(items: seq<Item>, c: Change, key: string)
    requires WellMade(c) && key !in Keys(c.add)
    ensures OfKey(Changed(items, c), key) ==
              if key in Keys(c.remove) then []
              else if key in Keys(c.done) then CheckOff(OfKey(items, key), key)
              else OfKey(items, key)
  {
    var kept := DropAll(items, c.remove);
    DropSpares(items, c.remove, key);
    CheckSpares(kept, c.done, key);
    OfKeyJoin(CheckAll(kept, c.done), Opened(c.add), key);
    OpenedOfKey(c.add, key);
  }

  // ------------------------------------------------------------------ the tables

  /** An agent that may change lists of a kind may also read them. */
  predicate GrantsCover(a: Grants) {
    (a.writesShared ==> a.readsShared) && (a.writesOwn ==> a.readsOwn)
  }

  lemma {:induction false} SelectJoin(a: seq<TodoList>, b: seq<TodoList>, keep: TodoList -> bool)
    ensures Select(a + b, keep) == Select(a, keep) + Select(b, keep)
  {
    if a == [] {
      assert a + b == b;
    } else {
      var rest := a[1..];
      assert (a + b)[1..] == rest + b && (a + b)[0] == a[0];
      SelectJoin(rest, b, keep);
      JoinTwice(if keep(a[0]) then [a[0]] else [], Select(rest, keep), Select(b, keep));
    }
  }

  lemma SelectOne(l: TodoList, keep: TodoList -> bool)
    ensures Select([l], keep) == if keep(l) then [l] else []
  {
    assert [l][1..] == [];
  }

  lemma UpdateSelect(lists: seq<TodoList>, i: nat, l: TodoList, keep: TodoList -> bool)
    requires i < |lists|
    ensures Select(lists, keep) ==
              Select(lists[..i], keep) + (if keep(lists[i]) then [lists[i]] else []) + Select(lists[i+1..], keep)
    ensures Select(lists[i := l], keep) ==
              Select(lists[..i], keep) + (if keep(l) then [l] else []) + Select(lists[i+1..], keep)
  {
    var a, b := lists[..i], lists[i+1..];
    SelectOne(l, keep);
    SelectOne(lists[i], keep);
    assert lists == a + [lists[i]] + b && lists[i := l] == a + [l] + b;
    SelectJoin(a, [lists[i]], keep);
    SelectJoin(a + [lists[i]], b, keep);
    SelectJoin(a, [l], keep);
    SelectJoin(a + [l], b, keep);
  }

  /** What a named lookup sees, when the grant to read is there, is what the table finds. */
  lemma {:induction false} SeenIsFound(lists: seq<TodoList>, keep: TodoList -> bool, owner: Option<string>,
                                       name: string)
    requires forall l :: keep(l) <==> l.owner == owner
    ensures var hits := NamedIn(Select(lists, keep), name);
            && (hits == [] <==> Find(lists, name, owner) == |lists|)
            && (hits != [] ==> hits[0] == lists[Find(lists, name, owner)])
  {
    if lists != [] {
      SeenIsFound(lists[1..], keep, owner, name);
      var rest := Select(lists[1..], keep);
      if keep(lists[0]) {
        assert Select(lists, keep) == [lists[0]] + rest;
        assert Select(lists, keep)[1..] == rest;
      } else {
        assert Select(lists, keep) == rest;
      }
    }
  }

  lemma {:induction false} NotFound(lists: seq<TodoList>, name: string, owner: Option<string>, i: nat)
    requires Find(lists, name, owner) == |lists| && i < |lists|
    ensures !(lists[i].owner == owner && Fold(lists[i].name) == Fold(name))
  {
    if i > 0 {
      NotFound(lists[1..], name, owner, i - 1);
    }
  }

  lemma {:induction false} SelectSame(lists: seq<TodoList>, one: TodoList -> bool, two: TodoList -> bool)
    requires forall l :: one(l) <==> two(l)
    ensures Select(lists, one) == Select(lists, two)
  {
    if lists != [] {
      SelectSame(lists[1..], one, two);
    }
  }

  lemma ItemsUpdateStaysBounded(lists: seq<TodoList>, i: nat, items: seq<Item>)
    requires Bounded(lists) && i < |lists| && OpenDistinct(items) && OpenCount(items) <= MAX_OPEN
    ensures Bounded(lists[i := lists[i].(items := items)])
  {
    var l := lists[i].(items := items);
    var after := lists[i := l];
    forall owner ensures |OwnedBy(after, owner)| <= MAX_LISTS {
      UpdateSelect(lists, i, l, (l: TodoList) => l.owner == owner);
      assert |OwnedBy(lists, owner)| <= MAX_LISTS;
    }
    forall j, k | 0 <= j < k < |after| ensures !SameName(after[j], after[k]) {
      assert !SameName(lists[j], lists[k]);
    }
  }

  lemma NewListStaysBounded(lists: seq<TodoList>, l: TodoList)
    requires Bounded(lists) && ListOk(l)
    requires Find(lists, l.name, l.owner) == |lists| && |OwnedBy(lists, l.owner)| < MAX_LISTS
    ensures Bounded(lists + [l])
  {
    var after := lists + [l];
    forall owner ensures |OwnedBy(after, owner)| <= MAX_LISTS {
      SelectJoin(lists, [l], (l: TodoList) => l.owner == owner);
      SelectOne(l, (l: TodoList) => l.owner == owner);
      assert |OwnedBy(lists, owner)| <= MAX_LISTS;
    }
    forall j, k | 0 <= j < k < |after| ensures !SameName(after[j], after[k]) {
      if k < |lists| {
        assert !SameName(lists[j], lists[k]);
      } else {
        NotFound(lists, l.name, l.owner, j);
      }
    }
  }

  lemma SharingStaysBounded(lists: seq<TodoList>, i: nat)
    requires Bounded(lists) && i < |lists| && lists[i].owner.Some?
    requires Find(lists, lists[i].name, None) == |lists| && |OwnedBy(lists, None)| < MAX_LISTS
    ensures Bounded(lists[i := lists[i].(owner := None)])
  {
    var l := lists[i].(owner := None);
    var after := lists[i := l];
    forall owner ensures |OwnedBy(after, owner)| <= MAX_LISTS {
      UpdateSelect(lists, i, l, (l: TodoList) => l.owner == owner);
      assert |OwnedBy(lists, owner)| <= MAX_LISTS;
    }
    forall j, k | 0 <= j < k < |after| ensures !SameName(after[j], after[k]) {
      assert !SameName(lists[j], lists[k]);
      NotFound(lists, l.name, None, j);
      NotFound(lists, l.name, None, k);
    }
  }

  /** One confirmed change, as the organizer checked it and the table wrote it. */
  ghost predicate Confirmed(lists: seq<TodoList>, a: Grants, c: Change, after: seq<TodoList>) {
    WellMade(c) && Refused(lists, a, c) == None && Written(lists, c, a.name) == Some(after)
  }

  lemma FindSameFold(lists: seq<TodoList>, name: string, other: string, owner: Option<string>)
    requires Fold(name) == Fold(other)
    ensures Find(lists, name, owner) == Find(lists, other, owner)
  {
    if lists != [] {
      FindSameFold(lists[1..], name, other, owner);
    }
  }

  /** Every confirmed change keeps the limits, for agents whose read grants cover their write grants. */
  lemma ChangesStayBounded(lists: seq<TodoList>, a: Grants, c: Change, after: seq<TodoList>)
    requires Bounded(lists) && GrantsCover(a) && Confirmed(lists, a, c, after)
    ensures Bounded(after)
  {
    if c.share {
      var i := Find(lists, c.name, Some(a.name));
      FindSameFold(lists, c.name, lists[i].name, None);
      SharingStaysBounded(lists, i);
    } else {
      PlainChangeStaysBounded(lists, a, c, after);
    }
  }

  lemma PlainChangeStaysBounded(lists: seq<TodoList>, a: Grants, c: Change, after: seq<TodoList>)
    requires Bounded(lists) && GrantsCover(a) && Confirmed(lists, a, c, after) && !c.share
    ensures Bounded(after)
  {
    hide Bounded, WellMade, ItemsFit, Changed;
    var owner := if c.private then Some(a.name) else None;
    var keep := (l: TodoList) => Visible(a, l.owner, c.private || c.share, true);
    SeenIsFound(lists, keep, owner, c.name);
    var i := Find(lists, c.name, owner);
    if i == |lists| {
      var kind := (l: TodoList) => l.owner.None? == !c.private;
      var mine := (l: TodoList) => l.owner == owner;
      SelectSame(lists, keep, mine);
      SelectTwiceOver(lists, mine, kind);
      NewItemsFit(c);
      NewListStaysBounded(lists, TodoList(c.name, owner, Changed([], c)));
    } else {
      ExistingStaysBounded(lists, i, c);
    }
  }

  lemma {:induction false} SelectTwiceOver(lists: seq<TodoList>, keep: TodoList -> bool, more: TodoList -> bool)
    requires forall l :: keep(l) ==> more(l)
    ensures Select(Select(lists, keep), more) == Select(lists, keep)
  {
    if lists != [] {
      SelectTwiceOver(lists[1..], keep, more);
      if keep(lists[0]) {
        assert Select(lists, keep)[1..] == Select(lists[1..], keep);
      } else {
        assert Select(lists, keep) == Select(lists[1..], keep);
      }
    }
  }

  lemma NewItemsFit(c: Change)
    requires WellMade(c) && c.done == [] && c.remove == []
    ensures OpenDistinct(Changed([], c)) && OpenCount(Changed([], c)) <= MAX_OPEN
  {
    assert c.done + c.remove == [];
    assert ItemsFit([], c);
    ChangedOpenItems([], c);
  }

  lemma ExistingStaysBounded(lists: seq<TodoList>, i: nat, c: Change)
    requires Bounded(lists) && i < |lists| && WellMade(c) && ItemsFit(lists[i].items, c)
    requires |OpenKeys(lists[i].items)| - |OpenKeys(lists[i].items) * Keys(c.done + c.remove)| + |c.add| <= MAX_OPEN
    ensures Bounded(lists[i := lists[i].(items := Changed(lists[i].items, c))])
  {
    assert ListOk(lists[i]);
    ChangedOpenItems(lists[i].items, c);
    ItemsUpdateStaysBounded(lists, i, Changed(lists[i].items, c));
  }

  lemma SharingRefusedIsTooMany(lists: seq<TodoList>, a: Grants, c: Change, after: seq<TodoList>)
    requires c.share && WellMade(c) && a.readsOwn && MayWrite(a, c) && Refused(lists, a, c) != None
    requires Written(lists, c, a.name) == Some(after)
    ensures |OwnedBy(after, None)| > MAX_LISTS
  {
    hide WellMade;
    var mine, shared := Some(a.name), (l: TodoList) => l.owner == None;
    SeenIsFound(lists, (l: TodoList) => Visible(a, l.owner, c.private || c.share, true), mine, c.name);
    var i := Find(lists, c.name, mine);
    UpdateSelect(lists, i, after[i], shared);
  }

  lemma NewRefusedIsTooMany(lists: seq<TodoList>, a: Grants, c: Change, after: seq<TodoList>, owner: Option<string>)
    requires !c.share && owner == (if c.private then Some(a.name) else None) && Find(lists, c.name, owner) == |lists|
    requires GrantsCover(a) && MayWrite(a, c) && Refused(lists, a, c) != None
    requires Written(lists, c, a.name) == Some(after)
    ensures |OwnedBy(after, owner)| > MAX_LISTS
  {
    hide Changed, ItemsFit;
    var keep := (l: TodoList) => Visible(a, l.owner, c.private || c.share, true);
    var mine, kind := (l: TodoList) => l.owner == owner, (l: TodoList) => l.owner.None? == !c.private;
    SeenIsFound(lists, keep, owner, c.name);
    SelectSame(lists, keep, mine);
    SelectTwiceOver(lists, mine, kind);
    SelectJoin(lists, [after[|lists|]], mine);
    SelectOne(after[|lists|], mine);
  }

  lemma OldRefusedIsTooOpen(lists: seq<TodoList>, a: Grants, c: Change, after: seq<TodoList>, i: nat)
    requires Bounded(lists) && WellMade(c) && GrantsCover(a) && MayWrite(a, c) && Refused(lists, a, c) != None
    requires !c.share && i == Find(lists, c.name, if c.private then Some(a.name) else None) < |lists|
    requires Written(lists, c, a.name) == Some(after)
    ensures !Bounded(after)
  {
    hide WellMade, Changed, ItemsFit, OpenDistinct, OpenCount, OwnedBy;
    SeenIsFound(lists, (l: TodoList) => Visible(a, l.owner, c.private || c.share, true),
                if c.private then Some(a.name) else None, c.name);
    assert ListOk(lists[i]);
    ChangedOpenItems(lists[i].items, c);
    assert !ListOk(after[i]);
  }

  /** A change the table would take is refused for a limit if and only if it would break one. */
  lemma RefusedExactlyAtTheLimits(lists: seq<TodoList>, a: Grants, c: Change, after: seq<TodoList>)
    requires Bounded(lists) && GrantsCover(a) && WellMade(c) && MayWrite(a, c)
    requires Written(lists, c, a.name) == Some(after)
    ensures Refused(lists, a, c) == None <==> Bounded(after)
  {
    if Refused(lists, a, c) == None {
      ChangesStayBounded(lists, a, c, after);
    } else if c.share {
      SharingRefusedIsTooMany(lists, a, c, after);
    } else {
      var owner := if c.private then Some(a.name) else None;
      var i := Find(lists, c.name, owner);
      if i == |lists| {
        NewRefusedIsTooMany(lists, a, c, after, owner);
      } else {
        OldRefusedIsTooOpen(lists, a, c, after, i);
      }
    }
  }

  /** Nobody's private lists but the actor's own are touched. */
  lemma OthersUntouched(lists: seq<TodoList>, c: Change, actor: string, after: seq<TodoList>, other: string)
    requires Written(lists, c, actor) == Some(after) && other != actor
    ensures OwnedBy(after, Some(other)) == OwnedBy(lists, Some(other))
  {
    var keep := (l: TodoList) => l.owner == Some(other);
    var owner := if c.private || c.share then Some(actor) else None;
    var i := Find(lists, c.name, owner);
    if i < |lists| {
      UpdateSelect(lists, i, after[i], keep);
    } else {
      var l := after[|lists|];
      SelectJoin(lists, [l], keep);
      SelectOne(l, keep);
    }
  }

  // ------------------------------------------------------------------ why the grants have to cover

  function FullList(private: bool, name: string): TodoList {
    TodoList("full", if private then Some(name) else None,
             seq(MAX_OPEN, i requires 0 <= i < MAX_OPEN => Item(seq(i + 1, _ => 'x'), false)))
  }

  lemma {:induction false} AllOpen(items: seq<Item>)
    requires forall i :: 0 <= i < |items| ==> !items[i].done
    ensures OpenCount(items) == |items|
  {
    if items != [] {
      AllOpen(items[1..]);
    }
  }

  lemma FullIsBounded(private: bool, name: string)
    ensures Bounded([FullList(private, name)])
  {
    var l := FullList(private, name);
    AllOpen(l.items);
    forall i, k | 0 <= i < k < |l.items| ensures Fold(l.items[i].text) != Fold(l.items[k].text) {
      assert |Fold(l.items[i].text)| == i + 1 && |Fold(l.items[k].text)| == k + 1;
    }
    forall owner ensures |OwnedBy([l], owner)| <= MAX_LISTS {
      SelectOne(l, (l: TodoList) => l.owner == owner);
    }
  }

  function OneMore(private: bool): Change {
    Change("full", ["one more"], [], [], private, false)
  }

  lemma OneMoreIsWellMade(private: bool)
    ensures WellMade(OneMore(private)) && Keys(OneMore(private).done + OneMore(private).remove) == {}
  {
    var c := OneMore(private);
    assert c.name[0] == 'f' && IsListName(c.name);
    assert Keys(c.done) == {} && Keys(c.remove) == {};
  }

  lemma OneMoreFits(private: bool, name: string)
    ensures var items := FullList(private, name).items;
            ItemsFit(items, OneMore(private)) && Changed(items, OneMore(private)) == items + [Item("one more", false)]
  {
    var items := FullList(private, name).items;
    forall i | 0 <= i < |items| ensures Fold(items[i].text) != Fold("one more") {
      assert Fold(items[i].text)[0] == 'x' && Fold("one more")[0] == 'o';
    }
    assert Opened(["one more"]) == [Item("one more", false)];
  }

  /** An agent that cannot see a full list is not told that it is full, and the table takes one item more. */
  lemma UnseenListOverflows(a: Grants, private: bool)
    requires if private then a.writesOwn && !a.readsOwn else a.writesShared && !a.readsShared
    ensures exists after :: Confirmed([FullList(private, a.name)], a, OneMore(private), after) && !Bounded(after)
  {
    hide WellMade, ItemsFit, Changed, OpenDistinct;
    var l, c := FullList(private, a.name), OneMore(private);
    var lists := [l];
    OneMoreIsWellMade(private);
    OneMoreFits(private, a.name);
    SelectOne(l, (l: TodoList) => Visible(a, l.owner, c.private || c.share, true));
    assert VisibleTo(lists, a, c.private || c.share, true) == [];
    assert Find(lists, c.name, l.owner) == 0;
    var items := l.items + [Item("one more", false)];
    AllOpen(items);
    var after := lists[0 := l.(items := items)];
    assert !ListOk(after[0]);
    assert Confirmed(lists, a, c, after);
  }

  ghost predicate KeepsLimits(lists: seq<TodoList>, a: Grants, c: Change, after: seq<TodoList>) {
    Bounded(lists) && Confirmed(lists, a, c, after) ==> Bounded(after)
  }

  /** So the limits hold for an agent exactly when its read grants cover its write grants. */
  lemma LimitsNeedGrants(a: Grants)
    ensures (forall lists, c, after :: KeepsLimits(lists, a, c, after)) <==> GrantsCover(a)
  {
    if GrantsCover(a) {
      forall lists, c, after ensures KeepsLimits(lists, a, c, after) {
        if Bounded(lists) && Confirmed(lists, a, c, after) {
          ChangesStayBounded(lists, a, c, after);
        }
      }
    } else {
      var private := a.writesOwn && !a.readsOwn;
      FullIsBounded(private, a.name);
      UnseenListOverflows(a, private);
      var after :| Confirmed([FullList(private, a.name)], a, OneMore(private), after) && !Bounded(after);
      assert !KeepsLimits([FullList(private, a.name)], a, OneMore(private), after);
    }
  }
}
