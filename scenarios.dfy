/** Client-side scenarios: what a caller can conclude from the handlers'
    contracts alone, on concrete requests. */
module Scenarios {
  import opened Types
  import opened Accounts
  import opened Reports
  import opened Server

  /** Stock 10 at 200 cents: selling 3 leaves 7 and records 600 cents; a
      second request for 8 is refused and changes nothing; stock 7 is not low. */
  method SellDownStock(now: Time) {
    var store := new Store();
    var owner := store.Register("a@example.com", "pw", "A", "North", "t0", now);
    var id := store.CreateItem(owner, "bolt", 10, 200, now);
    var first := store.RecordSale(owner, id, 3, now, true);
    assert first.Ok? && first.value.updatedItem.quantity == 7;
    assert first.value.sale.totalAmount == 600 && !first.value.lowStockAlert;
    assert store.sales == [Sale(id, 3, 600, owner, now)];
    var second := store.RecordSale(owner, id, 8, now, true);
    assert second == Err(InsufficientQuantity);
    assert store.items[id].quantity == 7 && |store.sales| == 1;
  }

  /** Stock 4: a sale of 5 is refused and no sale is recorded; another user
      cannot sell the item at all. */
  method RefusedSales(now: Time) {
    var store := new Store();
    var owner := store.Register("a@example.com", "pw", "A", "North", "t0", now);
    var other := store.Register("b@example.com", "pw", "B", "South", "t1", now);
    var id := store.CreateItem(owner, "nut", 4, 50, now);
    var r := store.RecordSale(owner, id, 5, now, true);
    assert r == Err(InsufficientQuantity) && store.items[id].quantity == 4 && store.sales == [];
    var s := store.RecordSale(other, id, 1, now, true);
    assert s == Err(ItemNotFound) && store.sales == [];
  }

  /** A verification link works once: login is refused before it, allowed
      after it, and the same link then fails. */
  method VerifyOnce(now: Time) {
    var store := new Store();
    var id := store.Register("a@example.com", "pw", "A", "North", "t0", now);
    assert Login(store.users, "a@example.com", "pw") == Err(EmailNotVerified);
    assert Login(store.users, "a@example.com", "wrong") == Err(InvalidCredentials);
    assert Matches(ByVerificationToken("t0", now), store.users[0]);
    var v := store.Verify("t0", now);
    assert v == Ok(0);
    assert store.users[0].isVerified && store.users[0].email == "a@example.com";
    assert Login(store.users, "a@example.com", "pw") == Ok(0);
    var again := store.Verify("t0", now);
    assert again == Err(InvalidToken);
  }

  /** A first sale of 3 at 200 cents gives the seller a summary entry of 3
      units and 600 cents. After the item is deleted and another is created,
      the new id differs from the deleted one and no earlier sale names it, so
      the new item starts with no summary entry. */
  method SummaryAcrossDelete(now: Time) {
    var store := new Store();
    var owner := store.Register("a@example.com", "pw", "A", "North", "t0", now);
    var id := store.CreateItem(owner, "bolt", 10, 200, now);
    ghost var before := Summary(store.sales, store.items, owner);
    ghost var items0, sales0 := store.items, store.sales;
    var r := store.RecordSale(owner, id, 3, now, true);
    assert r.Ok?;
    SaleGrowsSellerSummary(items0, sales0, r.value.sale, r.value.updatedItem);
    assert id !in before;
    assert Summary(store.sales, store.items, owner)[id].totalQuantity == 3;
    assert Summary(store.sales, store.items, owner)[id].totalAmount == 600;
    var d := store.DeleteItem(owner, id);
    assert d.Ok? && id !in Summary(store.sales, store.items, owner);
    var other := store.CreateItem(owner, "nut", 5, 50, now);
    assert other != id;
    assert other !in Summary(store.sales, store.items, owner);
  }

  /** Two days of sales, 10 on the first and 5 on the second, give a
      two-entry trend in day order. */
  lemma TwoDayTrend(u: UserId, item: ItemId)
    ensures Trend([Sale(item, 1, 10, u, 0), Sale(item, 1, 5, u, MillisPerDay)], u)
            == [TrendEntry(0, 10), TrendEntry(1, 5)]
  {
    var s0 := Sale(item, 1, 10, u, 0);
    var s1 := Sale(item, 1, 5, u, MillisPerDay);
    assert [s0, s1][..1] == [s0];
    assert [s0][..0] == [];
    assert DayKey(0) == 0 && DayKey(MillisPerDay) == 1;
    assert Trend([s0], u) == [TrendEntry(0, 10)];
    assert AddToDay([TrendEntry(0, 10)], 1, 5) == [TrendEntry(0, 10)] + AddToDay([], 1, 5);
  }
}
