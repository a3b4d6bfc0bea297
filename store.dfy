/** The server's in-memory picture of its database (users, items, sales) and
    the handlers that change it. Each handler reads what it needs, decides, and
    writes back only on success, so a failed request leaves the store as it was. */
module Server {
  import opened Types
  import opened Accounts
  import opened Reports

  datatype ApiError =
    | InvalidQuantity      // PATCH with a delta that is not a non-negative number
    | ItemNotFound         // no such item, or it belongs to someone else
    | InsufficientQuantity // a sale for more than is in stock
    | TransactionAborted   // the storage layer refused a write inside the sale's transaction
    | UserNotFound         // forgot-password for an unknown email
    | InvalidToken         // verification or reset token unknown or expired

  /** What POST /api/sales answers with; `lowStockAlert` says whether the
      low-stock email goes out. */
  datatype SaleReceipt = SaleReceipt(sale: Sale, updatedItem: Item, lowStockAlert: bool)

  /** What PATCH /api/items/:id answers with. */
  datatype StockUpdate = StockUpdate(item: Item, lowStockAlert: bool)

  /** Every unit an item ever received is either still in stock or recorded as
      sold by its owner. */
  ghost predicate StockConserved(items: map<ItemId, Item>, sales: seq<Sale>, stocked: map<ItemId, int>)
  {
    forall id :: id in items ==>
      id in stocked && items[id].quantity + UnitsSold(sales, items[id].owner, id) == stocked[id]
  }

  /** The summary report and the stock agree: the units it shows sold for a
      live item are the units the item received minus what is left. */
  lemma SummaryMatchesStock(items: map<ItemId, Item>, sales: seq<Sale>, stocked: map<ItemId, int>, id: ItemId)
    requires id in items && StockConserved(items, sales, stocked)
    ensures var r := Summary(sales, items, items[id].owner);
            && (id in r ==> r[id].totalQuantity == stocked[id] - items[id].quantity)
            && (id !in r ==> items[id].quantity == stocked[id])
  {
    var r := Summary(sales, items, items[id].owner);
    if id in r {
      SummaryTotals(sales, items, items[id].owner, id);
    } else {
      ZeroWithoutSales(sales, items, items[id].owner, id);
    }
  }

  /** A committed sale, which also changes its item's stock, grows the
      seller's summary entry for that item by the sale's quantity and amount
      and leaves the seller's other entries as they were. */
  lemma SaleGrowsSellerSummary(items: map<ItemId, Item>, sales: seq<Sale>, s: Sale, updated: Item)
    requires s.item in items && updated.name == items[s.item].name
    ensures var before := Summary(sales, items, s.user);
            var after := Summary(sales + [s], items[s.item := updated], s.user);
            && s.item in after
            && after[s.item].totalQuantity == (if s.item in before then before[s.item].totalQuantity else 0) + s.quantity
            && after[s.item].totalAmount == (if s.item in before then before[s.item].totalAmount else 0) + s.totalAmount
            && forall id :: id != s.item ==> (id in after <==> id in before) && (id in before ==> after[id] == before[id])
  {
    SummaryIgnoresStock(sales + [s], items, items[s.item := updated], s.user);
    SaleGrowsSummary(sales, items, s);
  }

  class Store {
    var users: seq<User>
    var items: map<ItemId, Item>
    var sales: seq<Sale>
    /** The next item id to hand out; the store never hands out an id twice. */
    var nextItemId: ItemId
    /** Units each live item has received: its initial quantity plus every restock. */
    ghost var stocked: map<ItemId, int>

    ghost predicate Valid()
      reads this
    {
      && (forall id :: id in items ==> id < nextItemId)
      && (forall k :: 0 <= k < |sales| ==> sales[k].item < nextItemId)
      && VerificationTokensDistinct(users)
      && ResetTokensDistinct(users)
      && StockConserved(items, sales, stocked)
    }

    constructor ()
      ensures Valid()
      ensures users == [] && items == map[] && sales == []
    {
      users, items, sales := [], map[], [];
      nextItemId := 0;
      stocked := map[];
    }

    // -------------------------------------------------------------------------
    // Accounts

    /** POST /api/auth/register. The account starts unverified with a token
        valid for 24 hours. `token` stands for the random token the server
        draws, so it is fresh. No duplicate-email rejection happens here. */
    method Register(email: Email, password: Password, name: string, warehouseName: string, token: Token, now: Time)
      returns (id: UserId)
      requires Valid()
      requires VerificationTokenUnused(users, token)
      modifies this
      ensures Valid()
      ensures nextItemId == old(nextItemId)
      ensures id == |old(users)|
      ensures users == old(users) + [User(email, password, name, warehouseName, false,
                                          Some(token), Some(now + VerificationLifetime), None, None)]
      ensures items == old(items) && sales == old(sales)
    {
      id := |users|;
      users := users + [User(email, password, name, warehouseName, false,
                             Some(token), Some(now + VerificationLifetime), None, None)];
    }

    /** GET /api/auth/verify/:token. Succeeds only for a user holding this
        token with an expiry later than now; that user becomes verified and
        its token is cleared, so the same link never works again. */
    method Verify(token: Token, now: Time) returns (r: Result<UserId, ApiError>)
      requires Valid()
      modifies this
      ensures Valid()
      ensures nextItemId == old(nextItemId)
      ensures old(FindOne(users, ByVerificationToken(token, now))).None? ==>
                r == Err(InvalidToken) && users == old(users)
      ensures old(FindOne(users, ByVerificationToken(token, now))).Some? ==>
                var i := old(FindOne(users, ByVerificationToken(token, now))).value;
                r == Ok(i) &&
                users == old(users)[i := old(users)[i].(isVerified := true, verificationToken := None, verificationTokenExpires := None)]
      ensures r.Ok? ==> forall later :: FindOne(users, ByVerificationToken(token, later)).None?
      ensures items == old(items) && sales == old(sales)
    {
      match FindOne(users, ByVerificationToken(token, now))
      case None =>
        r := Err(InvalidToken);
      case Some(i) =>
        var u := users[i];
        users := users[i := u.(isVerified := true, verificationToken := None, verificationTokenExpires := None)];
        r := Ok(i);
        assert VerificationTokenUnused(users, token);
        forall later: Time ensures FindOne(users, ByVerificationToken(token, later)).None? {
          UnusedTokenNeverMatches(users, token, later);
        }
    }

    /** POST /api/auth/forgot-password. The first user with this email gets a
        reset token valid for one hour, replacing any earlier one. `token`
        stands for the random token the server draws, so it is fresh. */
    method ForgotPassword(email: Email, token: Token, now: Time) returns (r: Result<UserId, ApiError>)
      requires Valid()
      requires ResetTokenUnused(users, token)
      modifies this
      ensures Valid()
      ensures nextItemId == old(nextItemId)
      ensures old(FindOne(users, ByEmail(email))).None? ==>
                r == Err(UserNotFound) && users == old(users)
      ensures old(FindOne(users, ByEmail(email))).Some? ==>
                var i := old(FindOne(users, ByEmail(email))).value;
                r == Ok(i) &&
                users == old(users)[i := old(users)[i].(resetPasswordToken := Some(token), resetPasswordExpires := Some(now + ResetLifetime))]
      ensures items == old(items) && sales == old(sales)
    {
      match FindOne(users, ByEmail(email))
      case None =>
        r := Err(UserNotFound);
      case Some(i) =>
        var u := users[i];
        users := users[i := u.(resetPasswordToken := Some(token), resetPasswordExpires := Some(now + ResetLifetime))];
        r := Ok(i);
    }

    /** POST /api/auth/reset-password/:token. Succeeds only for a user holding
        this reset token with an expiry later than now; that user's password
        is replaced and the token cleared, so the link is single-use. */
    method ResetPassword(token: Token, password: Password, now: Time) returns (r: Result<UserId, ApiError>)
      requires Valid()
      modifies this
      ensures Valid()
      ensures nextItemId == old(nextItemId)
      ensures old(FindOne(users, ByResetToken(token, now))).None? ==>
                r == Err(InvalidToken) && users == old(users)
      ensures old(FindOne(users, ByResetToken(token, now))).Some? ==>
                var i := old(FindOne(users, ByResetToken(token, now))).value;
                r == Ok(i) &&
                users == old(users)[i := old(users)[i].(password := password, resetPasswordToken := None, resetPasswordExpires := None)]
      ensures r.Ok? ==> forall later :: FindOne(users, ByResetToken(token, later)).None?
      ensures items == old(items) && sales == old(sales)
    {
      match FindOne(users, ByResetToken(token, now))
      case None =>
        r := Err(InvalidToken);
      case Some(i) =>
        var u := users[i];
        users := users[i := u.(password := password, resetPasswordToken := None, resetPasswordExpires := None)];
        r := Ok(i);
        assert ResetTokenUnused(users, token);
        forall later: Time ensures FindOne(users, ByResetToken(token, later)).None? {
          UnusedTokenNeverMatches(users, token, later);
        }
    }

    // -------------------------------------------------------------------------
    // Items

    /** POST /api/items: a new item owned by the caller, under a fresh id. */
    method CreateItem(caller: UserId, name: string, quantity: int, price: int, now: Time) returns (id: ItemId)
      requires Valid()
      modifies this
      ensures Valid()
      ensures id == old(nextItemId) && nextItemId == id + 1
      ensures id !in old(items)
      ensures forall k :: 0 <= k < |sales| ==> sales[k].item != id
      ensures items == old(items)[id := Item(caller, name, quantity, price, now)]
      ensures users == old(users) && sales == old(sales)
    {
      id := nextItemId;
      UnitsSoldUnnamed(sales, caller, id);
      items := items[id := Item(caller, name, quantity, price, now)];
      stocked := stocked[id := quantity];
      nextItemId := nextItemId + 1;
    }

    /** DELETE /api/items/:id: removes the item only if the caller owns it.
        The item's sales stay in the store. */
    method DeleteItem(caller: UserId, id: ItemId) returns (r: Result<Item, ApiError>)
      requires Valid()
      modifies this
      ensures Valid()
      ensures nextItemId == old(nextItemId)
      ensures id in old(items) && old(items)[id].owner == caller ==>
                r == Ok(old(items)[id]) && items == old(items) - {id}
      ensures !(id in old(items) && old(items)[id].owner == caller) ==>
                r == Err(ItemNotFound) && items == old(items)
      ensures users == old(users) && sales == old(sales)
    {
      if id !in items || items[id].owner != caller {
        return Err(ItemNotFound);
      }
      r := Ok(items[id]);
      items := items - {id};
    }

    /** PATCH /api/items/:id: adds a non-negative delta to the caller's item.
        `delta` is None when the request's quantity is not a number. The
        delta is checked before the item is looked up. */
    method AdjustStock(caller: UserId, id: ItemId, delta: Option<int>) returns (r: Result<StockUpdate, ApiError>)
      requires Valid()
      modifies this
      ensures Valid()
      ensures nextItemId == old(nextItemId)
      ensures delta.None? || delta.value < 0 ==>
                r == Err(InvalidQuantity) && items == old(items)
      ensures delta.Some? && delta.value >= 0 && !(id in old(items) && old(items)[id].owner == caller) ==>
                r == Err(ItemNotFound) && items == old(items)
      ensures delta.Some? && delta.value >= 0 && id in old(items) && old(items)[id].owner == caller ==>
                var updated := old(items)[id].(quantity := old(items)[id].quantity + delta.value);
                r == Ok(StockUpdate(updated, LowStock(updated.quantity))) && items == old(items)[id := updated]
      ensures r.Ok? ==> id in old(items) && r.value.item.quantity >= old(items)[id].quantity
      ensures r.Ok? ==> (r.value.lowStockAlert <==> LowStock(r.value.item.quantity))
      ensures users == old(users) && sales == old(sales)
    {
      if delta.None? || delta.value < 0 {
        return Err(InvalidQuantity);
      }
      if id !in items || items[id].owner != caller {
        return Err(ItemNotFound);
      }
      var updated := items[id].(quantity := items[id].quantity + delta.value);
      items := items[id := updated];
      stocked := stocked[id := stocked[id] + delta.value];
      r := Ok(StockUpdate(updated, LowStock(updated.quantity)));
    }

    // -------------------------------------------------------------------------
    // Sales

    /** POST /api/sales, one transaction: find the caller's item, refuse a
        quantity above the stock, then take the quantity off the stock and add
        a sale worth quantity * price. The quantity is not required to be
        positive. `storageOk` is whether the storage layer accepts both
        writes; if it does not, the transaction aborts. Either both writes
        happen or neither does. */
    method RecordSale(caller: UserId, itemId: ItemId, quantity: int, now: Time, storageOk: bool)
      returns (r: Result<SaleReceipt, ApiError>)
      requires Valid()
      modifies this
      ensures Valid()
      ensures nextItemId == old(nextItemId)
      ensures !(itemId in old(items) && old(items)[itemId].owner == caller) ==>
                r == Err(ItemNotFound)
      ensures itemId in old(items) && old(items)[itemId].owner == caller && old(items)[itemId].quantity < quantity ==>
                r == Err(InsufficientQuantity)
      ensures itemId in old(items) && old(items)[itemId].owner == caller && quantity <= old(items)[itemId].quantity ==>
                if !storageOk then r == Err(TransactionAborted)
                else
                  var was := old(items)[itemId];
                  var updated := was.(quantity := was.quantity - quantity);
                  var sale := Sale(itemId, quantity, quantity * was.price, caller, now);
                  && r == Ok(SaleReceipt(sale, updated, LowStock(updated.quantity)))
                  && items == old(items)[itemId := updated]
                  && sales == old(sales) + [sale]
      ensures r.Err? ==> items == old(items) && sales == old(sales)
      ensures r.Ok? ==> r.value.updatedItem.quantity >= 0
      ensures r.Ok? ==> (r.value.lowStockAlert <==> LowStock(r.value.updatedItem.quantity))
      ensures users == old(users)
    {
      if itemId !in items || items[itemId].owner != caller {
        return Err(ItemNotFound);
      }
      var item := items[itemId];
      if item.quantity < quantity {
        return Err(InsufficientQuantity);
      }
      var updated := item.(quantity := item.quantity - quantity);
      var sale := Sale(itemId, quantity, quantity * item.price, caller, now);
      if !storageOk {
        return Err(TransactionAborted);
      }
      // Commit: both writes become visible together.
      forall id | id in items ensures UnitsSold(sales + [sale], items[id].owner, id) ==
          UnitsSold(sales, items[id].owner, id) + (if id == itemId then quantity else 0) {
        UnitsSoldAppend(sales, sale, items[id].owner, id);
      }
      items := items[itemId := updated];
      sales := sales + [sale];
      r := Ok(SaleReceipt(sale, updated, LowStock(updated.quantity)));
    }
  }
}
