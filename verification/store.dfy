/**
 The persistent state the bot works on, and the storage primitives the core
 calls. The storage layer itself is not part of this model: each primitive
 here is a reference definition carrying the narrowest contract its call
 sites rely on (a debit that fails changes nothing, a status update of a
 missing row changes nothing, a reservation claims only free items, ...).
 Choices the storage layer makes on its own (which items a reservation
 tries, whether an insert succeeds) are passed in by the caller.
 */
module Store {
  import opened Wrappers

  type UserId = int

  /** One redeemable code in the stock table. */
  datatype StockItem = StockItem(
    code: string,
    codeType: string,
    isEncrypted: bool,
    addedBy: Option<UserId>,
    isAvailable: bool,
    reservedFor: Option<nat>,
    usedBy: Option<UserId>)

  /** An item counted as available: unused and unreserved. */
  predicate IsFree(item: StockItem, codeType: string) {
    item.codeType == codeType && item.isAvailable && item.reservedFor.None?
  }

  datatype OrderStatus = Pending | Completed | Failed | Cancelled

  /** The free-text delivery sub-state of an order; the source's values are
      'pending', 'pending_manual_delivery', 'delivery_failed', 'delivered',
      'stock_unavailable' and 'no_codes'. */
  datatype DeliveryStatus =
    | AwaitingDelivery | PendingManualDelivery | DeliveryFailed | Delivered
    | StockUnavailable | NoCodes

  datatype Order = Order(
    userId: UserId,
    orderNumber: string,
    packageType: string,
    quantity: int,
    totalPrice: int,
    paymentMethod: string,
    status: OrderStatus,
    deliveryStatus: DeliveryStatus,
    createdAt: int)

  datatype TopupStatus = TopupPending | TopupSuccess | TopupFailed

  datatype Topup = Topup(
    userId: UserId,
    amount: int,
    paymentType: string,
    transactionId: Option<string>,
    status: TopupStatus)

  /** Balances per user, the stock table and the orders table (row id =
      index; rows are only appended), and top-up rows keyed by the gateway
      order id. */
  datatype Store = Store(
    balances: map<UserId, int>,
    stock: seq<StockItem>,
    orders: seq<Order>,
    topups: map<string, Topup>)

  // ---------------------------------------------------------------------
  // Ledger
  // ---------------------------------------------------------------------

  /** `get_balance`: 0 for a user never seen. */
  function Balance(s: Store, u: UserId): int {
    if u in s.balances then s.balances[u] else 0
  }

  function SetBalance(s: Store, u: UserId, b: int): (r: Store)
    ensures Balance(r, u) == b
    ensures forall v :: v != u ==> Balance(r, v) == Balance(s, v)
    ensures r.stock == s.stock && r.orders == s.orders && r.topups == s.topups
  {
    s.(balances := s.balances[u := b])
  }

  datatype Debit = Debit(ok: bool, store: Store)

  /** `deduct_balance`: refuses, changing nothing, when the balance is short;
      otherwise subtracts `amount` from this user only. */
  function DeductBalance(s: Store, u: UserId, amount: int): (r: Debit)
    ensures r.ok <==> Balance(s, u) >= amount
    ensures !r.ok ==> r.store == s
    ensures r.ok ==> Balance(r.store, u) == Balance(s, u) - amount
    ensures forall v :: v != u ==> Balance(r.store, v) == Balance(s, v)
    ensures r.store.stock == s.stock && r.store.orders == s.orders && r.store.topups == s.topups
  {
    var b := Balance(s, u);
    if b < amount then Debit(false, s) else Debit(true, SetBalance(s, u, b - amount))
  }

  datatype Credit = Credit(newBalance: Option<int>, store: Store)

  /** `add_balance`: returns the new balance, or None (changing nothing) for
      a non-positive amount. */
  function AddBalance(s: Store, u: UserId, amount: int): (r: Credit)
    ensures r.newBalance.Some? <==> amount > 0
    ensures r.newBalance.None? ==> r.store == s
    ensures r.newBalance.Some? ==>
      r.newBalance.value == Balance(s, u) + amount && Balance(r.store, u) == Balance(s, u) + amount
    ensures forall v :: v != u ==> Balance(r.store, v) == Balance(s, v)
    ensures r.store.stock == s.stock && r.store.orders == s.orders && r.store.topups == s.topups
  {
    if amount <= 0 then Credit(None, s)
    else
      var b := Balance(s, u) + amount;
      Credit(Some(b), SetBalance(s, u, b))
  }

  // ---------------------------------------------------------------------
  // Orders table
  // ---------------------------------------------------------------------

  /** `get_order_by_id`. */
  function GetOrder(s: Store, id: nat): (r: Option<Order>)
    ensures r.Some? <==> id < |s.orders|
    ensures r.Some? ==> r.value == s.orders[id]
  {
    if id < |s.orders| then Some(s.orders[id]) else None
  }

  /** `update_order_status(id, status[, delivery_status])`: rewrites the
      status (and the delivery sub-state when one is given) of an existing
      order; nothing else changes. */
  function UpdateOrderStatus(s: Store, id: nat, status: OrderStatus, ds: Option<DeliveryStatus>): (r: Store)
    ensures |r.orders| == |s.orders|
    ensures id < |s.orders| ==>
      && r.orders[id].status == status
      && r.orders[id].deliveryStatus == ds.GetOr(s.orders[id].deliveryStatus)
      && r.orders[id] == s.orders[id].(status := status, deliveryStatus := r.orders[id].deliveryStatus)
    ensures forall j :: 0 <= j < |s.orders| && j != id ==> r.orders[j] == s.orders[j]
    ensures r.balances == s.balances && r.stock == s.stock && r.topups == s.topups
  {
    if id < |s.orders| then
      var o := s.orders[id];
      s.(orders := s.orders[id := o.(status := status, deliveryStatus := ds.GetOr(o.deliveryStatus))])
    else s
  }

  // ---------------------------------------------------------------------
  // Stock table
  // ---------------------------------------------------------------------

  /** `get_available_stock_count(code_type)`: the number of free items of
      the type; none exactly when no item of the type is free. */
  function CountFree(stock: seq<StockItem>, codeType: string): (n: nat)
    ensures n <= |stock|
    ensures n == 0 <==> forall j :: 0 <= j < |stock| ==> !IsFree(stock[j], codeType)
    decreases |stock|
  {
    if |stock| == 0 then 0
    else
      assert forall j :: 1 <= j < |stock| ==> stock[j] == stock[1..][j - 1];
      (if IsFree(stock[0], codeType) then 1 else 0) + CountFree(stock[1..], codeType)
  }

  /** Taking a free item out of the pool lowers the free count by one. */
  lemma {:induction false} CountFreeClaim(stock: seq<StockItem>, codeType: string, id: nat, item: StockItem)
    requires id < |stock| && IsFree(stock[id], codeType) && !IsFree(item, codeType)
    ensures CountFree(stock[id := item], codeType) == CountFree(stock, codeType) - 1
    decreases id
  {
    if id > 0 {
      assert stock[id := item][1..] == stock[1..][id - 1 := item];
      CountFreeClaim(stock[1..], codeType, id - 1, item);
    }
  }

  datatype Reservation = Reservation(stock: seq<StockItem>, ids: seq<nat>)

  /** `reserve_stock_codes(order_id, quantity)`: walks the storage layer's
      candidate ids `picks` in order and claims each one still free until
      `quantity` are claimed. The storage layer chooses the candidates; a
      short list stands for items lost to a concurrent claim. A reservation
      that comes up short has claimed every candidate that was free. */
  function Reserve(stock: seq<StockItem>, orderId: nat, quantity: int, codeType: string, picks: seq<nat>): (r: Reservation)
    ensures |r.stock| == |stock|
    ensures |r.ids| <= (if quantity > 0 then quantity else 0)
    ensures |r.ids| < quantity ==>
      forall k :: 0 <= k < |picks| && picks[k] < |stock| && IsFree(stock[picks[k]], codeType) ==> picks[k] in r.ids
    decreases |picks|
  {
    if |picks| == 0 || quantity <= 0 then Reservation(stock, [])
    else
      var id := picks[0];
      assert forall k :: 1 <= k < |picks| ==> picks[k] == picks[1..][k - 1];
      if id < |stock| && IsFree(stock[id], codeType) then
        var s1 := stock[id := stock[id].(reservedFor := Some(orderId))];
        var rest := Reserve(s1, orderId, quantity - 1, codeType, picks[1..]);
        assert forall k :: 1 <= k < |picks| && picks[k] < |stock| && picks[k] != id ==> s1[picks[k]] == stock[picks[k]];
        Reservation(rest.stock, [id] + rest.ids)
      else Reserve(stock, orderId, quantity, codeType, picks[1..])
  }

  /** Every id in `r.ids` names an item that was free in `stock` and is
      reserved for the order in `r.stock`. */
  ghost predicate ClaimedFrom(stock: seq<StockItem>, orderId: nat, codeType: string, r: Reservation)
  {
    forall i {:trigger r.ids[i]} :: 0 <= i < |r.ids| ==>
      && r.ids[i] < |stock| && |r.stock| == |stock| && IsFree(stock[r.ids[i]], codeType)
      && r.stock[r.ids[i]] == stock[r.ids[i]].(reservedFor := Some(orderId))
  }

  /** Every item outside `r.ids` is in `r.stock` exactly as it was in `stock`. */
  ghost predicate KeptElsewhere(stock: seq<StockItem>, r: Reservation)
  {
    |r.stock| == |stock| && forall j :: 0 <= j < |stock| && j !in r.ids ==> r.stock[j] == stock[j]
  }

  ghost predicate Distinct(ids: seq<nat>)
  {
    forall i, j :: 0 <= i < j < |ids| ==> ids[i] != ids[j]
  }

  /** The reservation claims only items that were free and marks each
      claimed item as reserved for the order. */
  lemma {:induction false} ReserveClaims(stock: seq<StockItem>, orderId: nat, quantity: int, codeType: string, picks: seq<nat>)
    ensures ClaimedFrom(stock, orderId, codeType, Reserve(stock, orderId, quantity, codeType, picks))
    decreases |picks|
  {
    if |picks| > 0 && quantity > 0 {
      var id := picks[0];
      if id < |stock| && IsFree(stock[id], codeType) {
        var s1 := stock[id := stock[id].(reservedFor := Some(orderId))];
        ReserveClaims(s1, orderId, quantity - 1, codeType, picks[1..]);
        ReserveFrame(s1, orderId, quantity - 1, codeType, picks[1..]);
        var rest := Reserve(s1, orderId, quantity - 1, codeType, picks[1..]);
        var r := Reserve(stock, orderId, quantity, codeType, picks);
        var ids := r.ids;
        assert ids == [id] + rest.ids && r.stock == rest.stock;
        forall k | 0 <= k < |rest.ids|
          ensures rest.ids[k] != id
        {
          assert IsFree(s1[rest.ids[k]], codeType);
        }
        forall i | 0 <= i < |ids|
          ensures ids[i] < |stock| && IsFree(stock[ids[i]], codeType)
          ensures r.stock[ids[i]] == stock[ids[i]].(reservedFor := Some(orderId))
        {
          if i > 0 {
            assert ids[i] == rest.ids[i - 1];
            assert IsFree(s1[rest.ids[i - 1]], codeType);
          }
        }
      } else {
        ReserveClaims(stock, orderId, quantity, codeType, picks[1..]);
      }
    }
  }

  /** The reservation claims each item at most once. */
  lemma {:induction false} ReserveDistinct(stock: seq<StockItem>, orderId: nat, quantity: int, codeType: string, picks: seq<nat>)
    ensures Distinct(Reserve(stock, orderId, quantity, codeType, picks).ids)
    decreases |picks|
  {
    if |picks| > 0 && quantity > 0 {
      var id := picks[0];
      if id < |stock| && IsFree(stock[id], codeType) {
        var s1 := stock[id := stock[id].(reservedFor := Some(orderId))];
        ReserveDistinct(s1, orderId, quantity - 1, codeType, picks[1..]);
        ReserveClaims(s1, orderId, quantity - 1, codeType, picks[1..]);
        var rest := Reserve(s1, orderId, quantity - 1, codeType, picks[1..]);
        var ids := Reserve(stock, orderId, quantity, codeType, picks).ids;
        assert ids == [id] + rest.ids;
        forall i, j | 0 <= i < j < |ids|
          ensures ids[i] != ids[j]
        {
          assert ids[j] == rest.ids[j - 1];
          if i > 0 {
            assert ids[i] == rest.ids[i - 1];
          } else {
            assert IsFree(s1[rest.ids[j - 1]], codeType);
          }
        }
      } else {
        ReserveDistinct(stock, orderId, quantity, codeType, picks[1..]);
      }
    }
  }

  /** Items the reservation did not claim are left exactly as they were. */
  lemma {:induction false} ReserveFrame(stock: seq<StockItem>, orderId: nat, quantity: int, codeType: string, picks: seq<nat>)
    ensures KeptElsewhere(stock, Reserve(stock, orderId, quantity, codeType, picks))
    decreases |picks|
  {
    if |picks| > 0 && quantity > 0 {
      var id := picks[0];
      if id < |stock| && IsFree(stock[id], codeType) {
        ReserveFrame(stock[id := stock[id].(reservedFor := Some(orderId))], orderId, quantity - 1, codeType, picks[1..]);
      } else {
        ReserveFrame(stock, orderId, quantity, codeType, picks[1..]);
      }
    }
  }

  /** Every claimed item leaves the free pool. */
  lemma {:induction false} ReserveCount(stock: seq<StockItem>, orderId: nat, quantity: int, codeType: string, picks: seq<nat>)
    ensures var r := Reserve(stock, orderId, quantity, codeType, picks);
      CountFree(r.stock, codeType) == CountFree(stock, codeType) - |r.ids|
    decreases |picks|
  {
    if |picks| > 0 && quantity > 0 {
      var id := picks[0];
      if id < |stock| && IsFree(stock[id], codeType) {
        var claimed := stock[id].(reservedFor := Some(orderId));
        CountFreeClaim(stock, codeType, id, claimed);
        ReserveCount(stock[id := claimed], orderId, quantity - 1, codeType, picks[1..]);
      } else {
        ReserveCount(stock, orderId, quantity, codeType, picks[1..]);
      }
    }
  }

  /** The three facts above together. */
  lemma ReserveFacts(stock: seq<StockItem>, orderId: nat, quantity: int, codeType: string, picks: seq<nat>)
    ensures var r := Reserve(stock, orderId, quantity, codeType, picks);
      && (forall i {:trigger r.ids[i]} :: 0 <= i < |r.ids| ==>
            && r.ids[i] < |stock| && IsFree(stock[r.ids[i]], codeType)
            && r.stock[r.ids[i]] == stock[r.ids[i]].(reservedFor := Some(orderId)))
      && (forall i, j :: 0 <= i < j < |r.ids| ==> r.ids[i] != r.ids[j])
      && (forall j :: 0 <= j < |stock| && j !in r.ids ==> r.stock[j] == stock[j])
      && CountFree(r.stock, codeType) == CountFree(stock, codeType) - |r.ids|
  {
    ReserveClaims(stock, orderId, quantity, codeType, picks);
    ReserveDistinct(stock, orderId, quantity, codeType, picks);
    ReserveFrame(stock, orderId, quantity, codeType, picks);
    ReserveCount(stock, orderId, quantity, codeType, picks);
  }

  /** The ids of the items reserved for an order, in id order. */
  function ReservedFrom(stock: seq<StockItem>, orderId: nat, from: nat): (ids: seq<nat>)
    requires from <= |stock|
    ensures forall i :: 0 <= i < |ids| ==> from <= ids[i] < |stock| && stock[ids[i]].reservedFor == Some(orderId)
    ensures forall j :: from <= j < |stock| && stock[j].reservedFor == Some(orderId) ==> j in ids
    ensures forall i, k :: 0 <= i < k < |ids| ==> ids[i] < ids[k]
    ensures |ids| == 0 <==> forall j :: from <= j < |stock| ==> stock[j].reservedFor != Some(orderId)
    decreases |stock| - from
  {
    if from == |stock| then []
    else if stock[from].reservedFor == Some(orderId) then [from] + ReservedFrom(stock, orderId, from + 1)
    else ReservedFrom(stock, orderId, from + 1)
  }

  /** `get_reserved_codes(order_id)`: exactly the items reserved for it. */
  function ReservedCodes(s: Store, orderId: nat): (ids: seq<nat>)
    ensures forall j :: 0 <= j < |s.stock| ==> (j in ids <==> s.stock[j].reservedFor == Some(orderId))
    ensures forall i :: 0 <= i < |ids| ==> ids[i] < |s.stock|
    ensures |ids| == 0 <==> forall j :: 0 <= j < |s.stock| ==> s.stock[j].reservedFor != Some(orderId)
  {
    ReservedFrom(s.stock, orderId, 0)
  }

  /** `mark_codes_as_used(ids, user)`: the listed items become unavailable
      and record their buyer; the reservation link is left as it was. */
  function MarkCodesAsUsed(s: Store, ids: seq<nat>, user: UserId): (r: Store)
    ensures |r.stock| == |s.stock|
    ensures forall j :: 0 <= j < |s.stock| ==>
      r.stock[j] == (if j in ids then s.stock[j].(isAvailable := false, usedBy := Some(user)) else s.stock[j])
    ensures r.balances == s.balances && r.orders == s.orders && r.topups == s.topups
  {
    s.(stock := seq(|s.stock|, j requires 0 <= j < |s.stock| =>
      if j in ids then s.stock[j].(isAvailable := false, usedBy := Some(user)) else s.stock[j]))
  }

  /** The release statement of `cancel_order`: every item reserved for the
      order loses its reservation; nothing else changes. */
  function ReleaseReservation(s: Store, orderId: nat): (r: Store)
    ensures |r.stock| == |s.stock|
    ensures forall j :: 0 <= j < |s.stock| ==>
      r.stock[j] == (if s.stock[j].reservedFor == Some(orderId) then s.stock[j].(reservedFor := None) else s.stock[j])
    ensures r.balances == s.balances && r.orders == s.orders && r.topups == s.topups
  {
    s.(stock := seq(|s.stock|, j requires 0 <= j < |s.stock| =>
      if s.stock[j].reservedFor == Some(orderId) then s.stock[j].(reservedFor := None) else s.stock[j]))
  }

  /** `add_stock_code`: appends a fresh available item; its id is returned. */
  function AddStockCode(s: Store, code: string, codeType: string, addedBy: Option<UserId>, isEncrypted: bool): (r: (nat, Store))
    ensures r.0 == |s.stock|
    ensures r.1.stock == s.stock + [StockItem(code, codeType, isEncrypted, addedBy, true, None, None)]
    ensures r.1.balances == s.balances && r.1.orders == s.orders && r.1.topups == s.topups
  {
    (|s.stock|, s.(stock := s.stock + [StockItem(code, codeType, isEncrypted, addedBy, true, None, None)]))
  }

  // ---------------------------------------------------------------------
  // Top-ups table
  // ---------------------------------------------------------------------

  /** `create_topup`: inserts or overwrites the row for `orderId` as a
      pending top-up; nothing else changes. */
  function CreateTopup(s: Store, orderId: string, user: UserId, amount: int,
                       paymentType: string, transactionId: Option<string>): (r: Store)
    ensures orderId in r.topups && r.topups[orderId].status == TopupPending
    ensures r.topups[orderId].userId == user && r.topups[orderId].amount == amount
    ensures r.topups[orderId].paymentType == paymentType && r.topups[orderId].transactionId == transactionId
    ensures forall k :: k != orderId ==> (k in r.topups <==> k in s.topups)
    ensures forall k :: k != orderId && k in s.topups ==> r.topups[k] == s.topups[k]
    ensures r.balances == s.balances && r.stock == s.stock && r.orders == s.orders
  {
    s.(topups := s.topups[orderId := Topup(user, amount, paymentType, transactionId, TopupPending)])
  }

  /** `update_topup_status`: rewrites the status of an existing row; a
      missing row is left missing. */
  function UpdateTopupStatus(s: Store, orderId: string, status: TopupStatus): (r: Store)
    ensures r.topups.Keys == s.topups.Keys
    ensures orderId in s.topups ==> r.topups[orderId] == s.topups[orderId].(status := status)
    ensures forall k :: k != orderId && k in s.topups ==> r.topups[k] == s.topups[k]
    ensures r.balances == s.balances && r.stock == s.stock && r.orders == s.orders
  {
    if orderId in s.topups then s.(topups := s.topups[orderId := s.topups[orderId].(status := status)])
    else s
  }
}
