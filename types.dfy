/** Shared vocabulary of the inventory server: identifiers, the item and sale
    documents, the low-stock threshold and the day key used by the reports. */
module Types {

  datatype Option<+T> = None | Some(value: T)

  /** Outcome of a handler: a value, or the error the handler answers with. */
  datatype Result<+T, +E> = Ok(value: T) | Err(error: E)

  /** Document ids. Users are numbered by their position in the user store;
      item ids are handed out by the store's counter, never twice. */
  type UserId = nat
  type ItemId = nat

  /** Milliseconds since the epoch (what `Date.now()` returns). */
  type Time = int

  /** An inventory item. `price` is in integer cents. */
  datatype Item = Item(owner: UserId, name: string, quantity: int, price: int, createdAt: Time)

  /** A recorded sale; `totalAmount` is in integer cents. */
  datatype Sale = Sale(item: ItemId, quantity: int, totalAmount: int, user: UserId, createdAt: Time)

  /** Stock strictly below this many units triggers a low-stock alert. */
  const LowStockThreshold: int := 5

  predicate LowStock(quantity: int)
  {
    quantity < LowStockThreshold
  }

  const MillisPerDay: int := 86400000

  /** The calendar day (UTC) of a timestamp, as a day number. It orders days
      exactly as the `%Y-%m-%d` strings of the trend report order them. Dafny's
      division rounds down for a positive divisor, as the calendar does before
      the epoch too. */
  function DayKey(t: Time): (d: int)
    ensures d * MillisPerDay <= t < (d + 1) * MillisPerDay
  {
    t / MillisPerDay
  }
}
