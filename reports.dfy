/** The reports over the sale records: the per-item summary, the per-day
    trend and the daily digest of each user's sales. */
module Reports {
  import opened Types
  import opened Accounts

  // Reference sums over a user's sales, one sale at a time in store order.

  /** Units of item `id` that `user` has sold. */
  function UnitsSold(sales: seq<Sale>, user: UserId, id: ItemId): int
  {
    if sales == [] then 0
    else
      var s := sales[|sales| - 1];
      UnitsSold(sales[..|sales| - 1], user, id) + (if s.user == user && s.item == id then s.quantity else 0)
  }

  /** Revenue `user` has taken for item `id`. */
  function Revenue(sales: seq<Sale>, user: UserId, id: ItemId): int
  {
    if sales == [] then 0
    else
      var s := sales[|sales| - 1];
      Revenue(sales[..|sales| - 1], user, id) + (if s.user == user && s.item == id then s.totalAmount else 0)
  }

  /** Revenue `user` has taken on day `day`. */
  function DayRevenue(sales: seq<Sale>, user: UserId, day: int): int
  {
    if sales == [] then 0
    else
      var s := sales[|sales| - 1];
      DayRevenue(sales[..|sales| - 1], user, day) + (if s.user == user && DayKey(s.createdAt) == day then s.totalAmount else 0)
  }

  /** Appending one sale adds its units to exactly its own user and item. */
  lemma UnitsSoldAppend(sales: seq<Sale>, s: Sale, user: UserId, id: ItemId)
    ensures UnitsSold(sales + [s], user, id) == UnitsSold(sales, user, id) + (if s.user == user && s.item == id then s.quantity else 0)
  {
  }

  /** An item that no sale names has sold nothing. */
  lemma {:induction false} UnitsSoldUnnamed(sales: seq<Sale>, user: UserId, id: ItemId)
    requires forall k :: 0 <= k < |sales| ==> sales[k].item != id
    ensures UnitsSold(sales, user, id) == 0
  {
    if sales != [] {
      var init := sales[..|sales| - 1];
      assert forall k :: 0 <= k < |init| ==> init[k] == sales[k];
      UnitsSoldUnnamed(init, user, id);
    }
  }

  // ---------------------------------------------------------------------------
  // GET /api/sales/summary

  datatype SummaryEntry = SummaryEntry(itemName: string, totalQuantity: int, totalAmount: int)

  /** The items `user` has sold that still exist in the item store. */
  ghost predicate SoldExisting(sales: seq<Sale>, items: map<ItemId, Item>, user: UserId, id: ItemId)
  {
    id in items && exists k :: 0 <= k < |sales| && sales[k].user == user && sales[k].item == id
  }

  /** The summary pipeline: keep the caller's sales, join each with its item
      (a sale whose item is gone drops out), and group by item, summing the
      quantities and the amounts. The groups come back in no particular order,
      so the report is a map keyed by item id. */
  function Summary(sales: seq<Sale>, items: map<ItemId, Item>, user: UserId): (r: map<ItemId, SummaryEntry>)
    ensures forall id :: id in r <==> SoldExisting(sales, items, user, id)
    ensures forall id :: id in r ==> id in items && r[id].itemName == items[id].name
  {
    if sales == [] then map[]
    else
      var m := Summary(sales[..|sales| - 1], items, user);
      var s := sales[|sales| - 1];
      assert forall id :: SoldExisting(sales[..|sales| - 1], items, user, id) ==> SoldExisting(sales, items, user, id) by {
        forall id | SoldExisting(sales[..|sales| - 1], items, user, id) ensures SoldExisting(sales, items, user, id) {
          var k :| 0 <= k < |sales| - 1 && sales[..|sales| - 1][k].user == user && sales[..|sales| - 1][k].item == id;
          assert sales[k] == sales[..|sales| - 1][k];
        }
      }
      assert forall id :: SoldExisting(sales, items, user, id) ==>
        SoldExisting(sales[..|sales| - 1], items, user, id) || (s.user == user && s.item == id) by {
        forall id | SoldExisting(sales, items, user, id)
          ensures SoldExisting(sales[..|sales| - 1], items, user, id) || (s.user == user && s.item == id)
        {
          var k :| 0 <= k < |sales| && sales[k].user == user && sales[k].item == id;
          if k < |sales| - 1 {
            assert sales[..|sales| - 1][k] == sales[k];
          }
        }
      }
      if s.user == user && s.item in items then
        var prev := if s.item in m then m[s.item] else SummaryEntry(items[s.item].name, 0, 0);
        m[s.item := prev.(totalQuantity := prev.totalQuantity + s.quantity, totalAmount := prev.totalAmount + s.totalAmount)]
      else
        m
  }

  /** Every summary entry carries exactly the units and the revenue of the
      caller's sales of that item. */
  lemma {:induction false} SummaryTotals(sales: seq<Sale>, items: map<ItemId, Item>, user: UserId, id: ItemId)
    requires id in Summary(sales, items, user)
    ensures Summary(sales, items, user)[id].totalQuantity == UnitsSold(sales, user, id)
    ensures Summary(sales, items, user)[id].totalAmount == Revenue(sales, user, id)
  {
    var init := sales[..|sales| - 1];
    var s := sales[|sales| - 1];
    if id in Summary(init, items, user) {
      SummaryTotals(init, items, user, id);
    } else {
      ZeroWithoutSales(init, items, user, id);
    }
  }

  /** An existing item the caller never sold has no units and no revenue. */
  lemma {:induction false} ZeroWithoutSales(sales: seq<Sale>, items: map<ItemId, Item>, user: UserId, id: ItemId)
    requires id in items && id !in Summary(sales, items, user)
    ensures UnitsSold(sales, user, id) == 0 && Revenue(sales, user, id) == 0
  {
    if sales != [] {
      var init := sales[..|sales| - 1];
      ZeroWithoutSales(init, items, user, id);
    }
  }

  /** The summary reads only which items exist and their names: a change of
      stock does not change it. */
  lemma {:induction false} SummaryIgnoresStock(sales: seq<Sale>, items: map<ItemId, Item>, items': map<ItemId, Item>, user: UserId)
    requires items.Keys == items'.Keys
    requires forall id :: id in items ==> items[id].name == items'[id].name
    ensures Summary(sales, items, user) == Summary(sales, items', user)
  {
    if sales != [] {
      SummaryIgnoresStock(sales[..|sales| - 1], items, items', user);
    }
  }

  /** Recording a sale of an existing item grows that item's entry by the
      sale's quantity and amount and leaves every other entry as it was. */
  lemma SaleGrowsSummary(sales: seq<Sale>, items: map<ItemId, Item>, s: Sale)
    requires s.item in items
    ensures var before := Summary(sales, items, s.user);
            var after := Summary(sales + [s], items, s.user);
            && s.item in after
            && after[s.item].totalQuantity == (if s.item in before then before[s.item].totalQuantity else 0) + s.quantity
            && after[s.item].totalAmount == (if s.item in before then before[s.item].totalAmount else 0) + s.totalAmount
            && forall id :: id != s.item ==> (id in after <==> id in before) && (id in before ==> after[id] == before[id])
  {
  }

  // ---------------------------------------------------------------------------
  // GET /api/sales/trend

  datatype TrendEntry = TrendEntry(day: int, totalSales: int)

  ghost predicate StrictlyAscending(t: seq<TrendEntry>)
  {
    forall i, j :: 0 <= i < j < |t| ==> t[i].day < t[j].day
  }

  function Days(t: seq<TrendEntry>): set<int>
  {
    set i | 0 <= i < |t| :: t[i].day
  }

  /** The total a trend reports for `day`, or 0 if the day is absent. */
  function TotalOn(t: seq<TrendEntry>, day: int): int
  {
    if t == [] then 0 else if t[0].day == day then t[0].totalSales else TotalOn(t[1..], day)
  }

  /** The days on which `user` made at least one sale. */
  function SaleDays(sales: seq<Sale>, user: UserId): set<int>
  {
    set k | 0 <= k < |sales| && sales[k].user == user :: DayKey(sales[k].createdAt)
  }

  /** Adds one sale's amount to its day's group, keeping the days in order. */
  function AddToDay(t: seq<TrendEntry>, day: int, amount: int): (r: seq<TrendEntry>)
    requires StrictlyAscending(t)
    ensures StrictlyAscending(r)
    ensures Days(r) == Days(t) + {day}
    ensures forall d :: TotalOn(r, d) == TotalOn(t, d) + (if d == day then amount else 0)
  {
    if t == [] then
      DaysCons(TrendEntry(day, amount), []);
      [TrendEntry(day, amount)]
    else
      AscendingTail(t);
      if day < t[0].day then
        NotInTotalZero(t, day);
        DaysCons(TrendEntry(day, amount), t);
        ConsAscending(TrendEntry(day, amount), t);
        [TrendEntry(day, amount)] + t
      else if day == t[0].day then
        NotInTotalZero(t[1..], day);
        DaysCons(t[0], t[1..]);
        DaysCons(TrendEntry(day, t[0].totalSales + amount), t[1..]);
        ConsAscending(TrendEntry(day, t[0].totalSales + amount), t[1..]);
        [TrendEntry(day, t[0].totalSales + amount)] + t[1..]
      else
        var rest := AddToDay(t[1..], day, amount);
        DaysCons(t[0], t[1..]);
        DaysCons(t[0], rest);
        ConsAscending(t[0], rest);
        [t[0]] + rest
  }

  lemma DaysCons(e: TrendEntry, t: seq<TrendEntry>)
    ensures Days([e] + t) == {e.day} + Days(t)
  {
    var r := [e] + t;
    forall d | d in Days(r) ensures d in {e.day} + Days(t) {
      var i :| 0 <= i < |r| && r[i].day == d;
      if i > 0 { assert r[i] == t[i - 1]; }
    }
    forall d | d in Days(t) ensures d in Days(r) {
      var i :| 0 <= i < |t| && t[i].day == d;
      assert r[i + 1] == t[i];
    }
    assert r[0] == e;
  }

  /** The tail of an ascending trend is ascending and lies after its head. */
  lemma AscendingTail(t: seq<TrendEntry>)
    requires StrictlyAscending(t) && t != []
    ensures StrictlyAscending(t[1..])
    ensures forall d :: d in Days(t[1..]) ==> t[0].day < d
  {
  }

  lemma ConsAscending(e: TrendEntry, t: seq<TrendEntry>)
    requires StrictlyAscending(t)
    requires forall d :: d in Days(t) ==> e.day < d
    ensures StrictlyAscending([e] + t)
  {
    var r := [e] + t;
    forall i, j | 0 <= i < j < |r| ensures r[i].day < r[j].day {
      assert r[j] == t[j - 1];
      assert t[j - 1].day in Days(t);
      if i > 0 { assert r[i] == t[i - 1]; }
    }
  }

  /** A day not in an ascending trend has total 0, and so does a day before its first entry. */
  lemma {:induction false} NotInTotalZero(t: seq<TrendEntry>, day: int)
    requires StrictlyAscending(t)
    requires day !in Days(t)
    ensures TotalOn(t, day) == 0
  {
    if t != [] {
      assert t[0].day in Days(t);
      assert Days(t[1..]) <= Days(t);
      NotInTotalZero(t[1..], day);
    }
  }

  /** The trend pipeline: keep the caller's sales, group them by day summing
      their amounts, and sort the groups by day, earliest first. */
  function Trend(sales: seq<Sale>, user: UserId): (r: seq<TrendEntry>)
    ensures StrictlyAscending(r)
    ensures Days(r) == SaleDays(sales, user)
  {
    if sales == [] then []
    else
      var init := sales[..|sales| - 1];
      var s := sales[|sales| - 1];
      var t := Trend(init, user);
      assert SaleDays(sales, user) == SaleDays(init, user) + (if s.user == user then {DayKey(s.createdAt)} else {}) by {
        forall d | d in SaleDays(sales, user) ensures d in SaleDays(init, user) || (s.user == user && d == DayKey(s.createdAt)) {
          var k :| 0 <= k < |sales| && sales[k].user == user && DayKey(sales[k].createdAt) == d;
          if k < |sales| - 1 { assert init[k] == sales[k]; }
        }
        forall d | d in SaleDays(init, user) ensures d in SaleDays(sales, user) {
          var k :| 0 <= k < |init| && init[k].user == user && DayKey(init[k].createdAt) == d;
          assert sales[k] == init[k];
        }
      }
      if s.user == user then AddToDay(t, DayKey(s.createdAt), s.totalAmount) else t
  }

  /** Each day of the trend carries exactly the caller's revenue of that day,
      and a day without sales reports nothing. */
  lemma {:induction false} TrendTotals(sales: seq<Sale>, user: UserId, day: int)
    ensures TotalOn(Trend(sales, user), day) == DayRevenue(sales, user, day)
  {
    if sales != [] {
      TrendTotals(sales[..|sales| - 1], user, day);
    }
  }

  // ---------------------------------------------------------------------------
  // The daily summary job

  /** The sales of `user` recorded at or after `start`, in store order. */
  function SalesSince(sales: seq<Sale>, user: UserId, start: Time): seq<Sale>
  {
    if sales == [] then []
    else
      var x := sales[0];
      (if x.user == user && x.createdAt >= start then [x] else []) + SalesSince(sales[1..], user, start)
  }

  /** The query keeps exactly the user's sales since `start`, and nothing else. */
  lemma {:induction false} SalesSinceMembers(sales: seq<Sale>, user: UserId, start: Time)
    ensures forall x :: x in SalesSince(sales, user, start) <==> x in sales && x.user == user && x.createdAt >= start
  {
    if sales != [] {
      SalesSinceMembers(sales[1..], user, start);
      assert sales == [sales[0]] + sales[1..];
    }
  }

  /** One daily-summary email: a user and the sales it reports. */
  datatype Digest = Digest(user: UserId, sales: seq<Sale>)

  /** The daily summary job: for each user in store order, the user's sales
      since the start of the day, with a digest only for users who sold
      something. The returned digests stand for the emails sent. */
  method DailySummaries(users: seq<User>, sales: seq<Sale>, dayStart: Time) returns (digests: seq<Digest>)
    ensures forall k :: 0 <= k < |digests| ==>
              digests[k].user < |users| && digests[k].sales != [] &&
              digests[k].sales == SalesSince(sales, digests[k].user, dayStart)
    ensures forall u: UserId :: u < |users| && SalesSince(sales, u, dayStart) != [] ==>
              exists k :: 0 <= k < |digests| && digests[k].user == u
    ensures forall k, l :: 0 <= k < l < |digests| ==> digests[k].user < digests[l].user
  {
    digests := [];
    var i := 0;
    while i < |users|
      invariant 0 <= i <= |users|
      invariant forall k :: 0 <= k < |digests| ==>
                  digests[k].user < i && digests[k].sales != [] &&
                  digests[k].sales == SalesSince(sales, digests[k].user, dayStart)
      invariant forall u: UserId :: u < i && SalesSince(sales, u, dayStart) != [] ==>
                  exists k :: 0 <= k < |digests| && digests[k].user == u
      invariant forall k, l :: 0 <= k < l < |digests| ==> digests[k].user < digests[l].user
    {
      var found := SalesSince(sales, i, dayStart);
      if |found| > 0 {
        ghost var before := digests;
        digests := digests + [Digest(i, found)];
        assert digests[|before|].user == i;
        assert forall k :: 0 <= k < |before| ==> digests[k] == before[k];
      }
      i := i + 1;
    }
  }
}
