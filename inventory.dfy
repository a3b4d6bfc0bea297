/** GET /api/items: the caller's items, newest first. */
module Inventory {
  import opened Types

  /** The ids of the items `owner` owns. */
  function OwnedIds(items: map<ItemId, Item>, owner: UserId): set<ItemId>
  {
    set id | id in items && items[id].owner == owner
  }

  /** Some id in a non-empty set names an item at least as new as every other. */
  lemma {:induction false} NewestExists(items: map<ItemId, Item>, s: set<ItemId>)
    requires s != {} && s <= items.Keys
    ensures exists x :: x in s && forall y :: y in s ==> items[y].createdAt <= items[x].createdAt
    decreases s
  {
    var z :| z in s;
    if s - {z} != {} {
      NewestExists(items, s - {z});
      var x :| x in s - {z} && forall y :: y in s - {z} ==> items[y].createdAt <= items[x].createdAt;
      if items[z].createdAt > items[x].createdAt {
        assert forall y :: y in s ==> items[y].createdAt <= items[z].createdAt;
      } else {
        assert forall y :: y in s ==> items[y].createdAt <= items[x].createdAt;
      }
    } else {
      assert s == {z};
    }
  }

  /** The ids of `s` sorted by `createdAt`, newest first. Items created at the
      same instant come in no promised order. */
  ghost function NewestFirst(items: map<ItemId, Item>, s: set<ItemId>): (r: seq<ItemId>)
    requires s <= items.Keys
    ensures forall id :: id in r <==> id in s
    ensures |r| == |s|
    ensures forall i, j :: 0 <= i < j < |r| ==> r[i] != r[j]
    ensures forall i, j :: 0 <= i < j < |r| ==> items[r[i]].createdAt >= items[r[j]].createdAt
    decreases s
  {
    if s == {} then []
    else
      NewestExists(items, s);
      var x :| x in s && forall y :: y in s ==> items[y].createdAt <= items[x].createdAt;
      var rest := NewestFirst(items, s - {x});
      assert forall j :: 0 <= j < |rest| ==> rest[j] in s - {x};
      [x] + rest
  }

  /** `Item.find({ user }).sort('-createdAt')`: exactly the caller's items,
      each once, newest first. */
  ghost function ListItems(items: map<ItemId, Item>, owner: UserId): (r: seq<ItemId>)
    ensures forall id :: id in r <==> id in items && items[id].owner == owner
    ensures forall i, j :: 0 <= i < j < |r| ==> r[i] != r[j]
    ensures forall i, j :: 0 <= i < j < |r| ==> items[r[i]].createdAt >= items[r[j]].createdAt
  {
    NewestFirst(items, OwnedIds(items, owner))
  }
}
