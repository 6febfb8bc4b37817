/**
 The order lifecycle: validation, creation (debit, insert, reserve, with
 refunds when a later step fails), processing against a delivery outcome,
 cancellation, retry, and the bounded sweep over pending orders.
 */
module Orders {
  import opened Wrappers
  import opened Config
  import opened Store

  /** The code type that stock counts and reservations use by default. */
  const DefaultCodeType: string := "redfinger"

  // ---------------------------------------------------------------------
  // Validation
  // ---------------------------------------------------------------------

  datatype Validation =
    | Valid(quantity: int, price: int, balance: int, availableStock: nat)
    | InvalidPackage
    | TooManyCodes(quantity: int)
    | InsufficientBalance(required: int, current: int, shortfall: int)
    | InsufficientStock(required: int, available: nat)

  /** `validate_order_request`: unknown package, then the per-order
      quantity ceiling, then the balance, then the stock, reporting the first
      check that fails. It only reads the store. */
  function ValidateOrderRequest(cfg: Config, s: Store, userId: UserId, packageType: string): (v: Validation)
    ensures v.InvalidPackage? <==> GetPackageInfo(cfg, packageType).None?
    ensures v.Valid? ==>
      && GetPackageInfo(cfg, packageType).Some?
      && v.quantity == GetPackageInfo(cfg, packageType).value.quantity
      && v.price == GetPackageInfo(cfg, packageType).value.price
      && v.availableStock == CountFree(s.stock, DefaultCodeType)
      && v.quantity <= cfg.maxCodesPerOrder && v.price <= v.balance
      && v.quantity <= v.availableStock && v.balance == Balance(s, userId)
    ensures v.TooManyCodes? ==>
      && GetPackageInfo(cfg, packageType).Some?
      && v.quantity == GetPackageInfo(cfg, packageType).value.quantity > cfg.maxCodesPerOrder
    ensures v.InsufficientBalance? ==>
      && GetPackageInfo(cfg, packageType).Some?
      && v.required == GetPackageInfo(cfg, packageType).value.price
      && v.shortfall == v.required - v.current && v.shortfall > 0
      && v.current == Balance(s, userId)
    ensures v.InsufficientStock? ==>
      && GetPackageInfo(cfg, packageType).Some?
      && v.required == GetPackageInfo(cfg, packageType).value.quantity
      && v.available == CountFree(s.stock, DefaultCodeType)
      && v.available < v.required
  {
    match GetPackageInfo(cfg, packageType)
    case None => InvalidPackage
    case Some(p) =>
      if p.quantity > cfg.maxCodesPerOrder then TooManyCodes(p.quantity)
      else
        var balance := Balance(s, userId);
        if balance < p.price then InsufficientBalance(p.price, balance, p.price - balance)
        else
          var available := CountFree(s.stock, DefaultCodeType);
          if available < p.quantity then InsufficientStock(p.quantity, available)
          else Valid(p.quantity, p.price, balance, available)
  }

  /** A request is valid exactly when the package exists, is within the
      ceiling, is affordable and is in stock; and a failing check hides the
      ones after it. */
  lemma ValidationOrder(cfg: Config, s: Store, userId: UserId, packageType: string)
    ensures var v := ValidateOrderRequest(cfg, s, userId, packageType);
      var info := GetPackageInfo(cfg, packageType);
      && (v.Valid? <==>
            && info.Some?
            && info.value.quantity <= cfg.maxCodesPerOrder
            && Balance(s, userId) >= info.value.price
            && CountFree(s.stock, DefaultCodeType) >= info.value.quantity)
      && (info.Some? && info.value.quantity > cfg.maxCodesPerOrder ==> v.TooManyCodes?)
      && ((info.Some? && info.value.quantity <= cfg.maxCodesPerOrder
            && Balance(s, userId) < info.value.price) ==> v.InsufficientBalance?)
      && ((info.Some? && info.value.quantity <= cfg.maxCodesPerOrder
            && Balance(s, userId) >= info.value.price
            && CountFree(s.stock, DefaultCodeType) < info.value.quantity)
          ==> v == InsufficientStock(info.value.quantity, CountFree(s.stock, DefaultCodeType)))
  {
  }

  // ---------------------------------------------------------------------
  // Creation
  // ---------------------------------------------------------------------

  /** What the storage layer decides while an order is created: whether the
      order insert succeeds, the generated order number and time, and the
      candidate stock ids the reservation tries. */
  datatype CreateOracle = CreateOracle(insertOk: bool, orderNumber: string, createdAt: int, picks: seq<nat>)

  datatype CreateResult =
    | Created(orderId: nat, orderNumber: string, quantity: int, price: int, stockIds: seq<nat>)
    | Rejected(validation: Validation)
    | DebitFailed
    | InsertFailed
    | StockShort(orderId: nat, orderNumber: string, claimed: seq<nat>)

  datatype CreateOutcome = CreateOutcome(result: CreateResult, store: Store)

  /** The package price, 0 for an unknown package. */
  function PriceOf(cfg: Config, packageType: string): int {
    match GetPackageInfo(cfg, packageType)
    case Some(p) => p.price
    case None => 0
  }

  /** `create_new_order`. */
  function CreateNewOrder(cfg: Config, s: Store, userId: UserId, packageType: string,
                          paymentMethod: string, oracle: CreateOracle): (r: CreateOutcome)
    // a failed validation or debit creates nothing and moves no money
    ensures |r.store.stock| == |s.stock|
    ensures r.result.Rejected? <==> !ValidateOrderRequest(cfg, s, userId, packageType).Valid?
    ensures r.result.Rejected? || r.result.DebitFailed? ==> r.store == s
    // after a debit, a failed insert or a short reservation gives the money back
    ensures (r.result.InsertFailed? || r.result.StockShort?) && PriceOf(cfg, packageType) >= 0
      ==> Balance(r.store, userId) == Balance(s, userId)
    ensures r.result.InsertFailed? ==> r.store.orders == s.orders && r.store.stock == s.stock
    ensures r.result.StockShort? ==>
      && r.result.orderId == |s.orders| && |r.store.orders| == |s.orders| + 1
      && r.store.orders[r.result.orderId].status == Failed
      && r.store.orders[r.result.orderId].deliveryStatus == StockUnavailable
      && |r.result.claimed| < GetPackageInfo(cfg, packageType).value.quantity
      // the items it did claim were free and stay reserved; no other item moves
      && ClaimedFrom(s.stock, r.result.orderId, DefaultCodeType, Reservation(r.store.stock, r.result.claimed))
      && KeptElsewhere(s.stock, Reservation(r.store.stock, r.result.claimed))
    // success: exactly the price was debited and exactly the package's
    // number of distinct items reserved for the new pending order
    ensures r.result.Created? ==>
      && GetPackageInfo(cfg, packageType).Some?
      && Balance(r.store, userId) == Balance(s, userId) - r.result.price
      && r.result.price == PriceOf(cfg, packageType)
      && r.result.quantity == GetPackageInfo(cfg, packageType).value.quantity
      && |r.result.stockIds| == r.result.quantity && Distinct(r.result.stockIds)
      && r.result.orderId == |s.orders| && |r.store.orders| == |s.orders| + 1
      && r.result.orderNumber == oracle.orderNumber
      && r.store.orders[r.result.orderId]
         == Order(userId, oracle.orderNumber, packageType, r.result.quantity, r.result.price,
                  paymentMethod, Pending, AwaitingDelivery, oracle.createdAt)
      // each claimed item was free and is now reserved for the order; no other item moves
      && ClaimedFrom(s.stock, r.result.orderId, DefaultCodeType, Reservation(r.store.stock, r.result.stockIds))
      && KeptElsewhere(s.stock, Reservation(r.store.stock, r.result.stockIds))
    // no other account and no top-up is touched
    ensures forall v :: v != userId ==> Balance(r.store, v) == Balance(s, v)
    ensures r.store.topups == s.topups
    ensures r.store.orders[..|s.orders|] == s.orders
  {
    var v := ValidateOrderRequest(cfg, s, userId, packageType);
    if !v.Valid? then CreateOutcome(Rejected(v), s)
    else
      var p := GetPackageInfo(cfg, packageType).value;
      var d := DeductBalance(s, userId, p.price);
      if !d.ok then CreateOutcome(DebitFailed, s)
      else if !oracle.insertOk then
        CreateOutcome(InsertFailed, AddBalance(d.store, userId, p.price).store)
      else
        var id := |d.store.orders|;
        var order := Order(userId, oracle.orderNumber, packageType, p.quantity, p.price,
                           paymentMethod, Pending, AwaitingDelivery, oracle.createdAt);
        var s1 := d.store.(orders := d.store.orders + [order]);
        var res := Reserve(s1.stock, id, p.quantity, DefaultCodeType, oracle.picks);
        var s2 := s1.(stock := res.stock);
        assert s2.balances == d.store.balances;
        ReserveClaims(s1.stock, id, p.quantity, DefaultCodeType, oracle.picks);
        ReserveFrame(s1.stock, id, p.quantity, DefaultCodeType, oracle.picks);
        if |res.ids| < p.quantity then
          var s3 := AddBalance(s2, userId, p.price).store;
          assert UpdateOrderStatus(s3, id, Failed, Some(StockUnavailable)).balances == s3.balances;
          CreateOutcome(StockShort(id, oracle.orderNumber, res.ids),
                        UpdateOrderStatus(s3, id, Failed, Some(StockUnavailable)))
        else
          ReserveDistinct(s1.stock, id, p.quantity, DefaultCodeType, oracle.picks);
          assert s2.orders[id] == order;
          CreateOutcome(Created(id, oracle.orderNumber, p.quantity, p.price, res.ids), s2)
  }

  /** A short reservation refunds the debit but does not release the items
      it did claim: they stay reserved for the failed order and the free
      pool shrinks by their number. */
  lemma PartialReservationLeaks(cfg: Config, s: Store, userId: UserId, packageType: string,
                                paymentMethod: string, oracle: CreateOracle)
    ensures var r := CreateNewOrder(cfg, s, userId, packageType, paymentMethod, oracle);
      r.result.StockShort? ==>
        && (forall i :: 0 <= i < |r.result.claimed| ==>
              r.result.claimed[i] < |r.store.stock|
              && r.store.stock[r.result.claimed[i]].reservedFor == Some(r.result.orderId))
        && CountFree(r.store.stock, DefaultCodeType) == CountFree(s.stock, DefaultCodeType) - |r.result.claimed|
  {
    var r := CreateNewOrder(cfg, s, userId, packageType, paymentMethod, oracle);
    if r.result.StockShort? {
      var p := GetPackageInfo(cfg, packageType).value;
      var d := DeductBalance(s, userId, p.price);
      ReserveFacts(d.store.stock, |s.orders|, p.quantity, DefaultCodeType, oracle.picks);
    }
  }

  // ---------------------------------------------------------------------
  // Processing
  // ---------------------------------------------------------------------

  /** What the delivery handler does when the order is processed: there is
      none, it returns a result with this success flag, or it raises. */
  datatype HandlerOutcome = NoHandler | Returned(success: bool) | Raised

  datatype ProcessError = OrderNotFound | NoCodesReserved | DeliveryFailedError

  datatype ProcessResult = ProcessResult(
    success: bool,
    delivered: bool,
    error: Option<ProcessError>,
    manualDeliveryRequired: bool,
    retryPossible: bool)

  datatype ProcessOutcome = ProcessOutcome(result: ProcessResult, store: Store)

  const AlreadyDone: ProcessResult := ProcessResult(true, true, None, false, false)

  /** `process_order`. */
  function ProcessOrder(cfg: Config, s: Store, orderId: nat, handler: HandlerOutcome): (r: ProcessOutcome)
    // an unknown or already completed order is answered without any change
    ensures orderId >= |s.orders| ==> r.store == s && !r.result.success
    ensures orderId < |s.orders| && s.orders[orderId].status == Completed ==>
      r.store == s && r.result == AlreadyDone
    // delivery is reported exactly for completed orders and fresh successful deliveries
    ensures r.result.delivered <==>
      (orderId < |s.orders| &&
       (s.orders[orderId].status == Completed
        || (|ReservedCodes(s, orderId)| > 0 && cfg.autoDeliveryEnabled && handler == Returned(true))))
    // processing never moves money, never touches top-ups, never adds orders
    ensures r.store.balances == s.balances && r.store.topups == s.topups
    ensures |r.store.orders| == |s.orders| && |r.store.stock| == |s.stock|
    // only the order's status fields and the items reserved for it can change
    ensures orderId < |s.orders| ==>
      r.store.orders[orderId] == s.orders[orderId].(status := r.store.orders[orderId].status,
                                                    deliveryStatus := r.store.orders[orderId].deliveryStatus)
    ensures forall j :: 0 <= j < |s.orders| && j != orderId ==> r.store.orders[j] == s.orders[j]
    ensures forall j :: 0 <= j < |s.stock| && s.stock[j].reservedFor != Some(orderId) ==> r.store.stock[j] == s.stock[j]
  {
    match GetOrder(s, orderId)
    case None => ProcessOutcome(ProcessResult(false, false, Some(OrderNotFound), false, false), s)
    case Some(o) =>
      if o.status == Completed then ProcessOutcome(AlreadyDone, s)
      else
        var codes := ReservedCodes(s, orderId);
        if |codes| == 0 then
          ProcessOutcome(ProcessResult(false, false, Some(NoCodesReserved), false, false),
                         UpdateOrderStatus(s, orderId, Failed, Some(NoCodes)))
        else if handler.NoHandler? || !cfg.autoDeliveryEnabled then
          ProcessOutcome(ProcessResult(true, false, None, true, false),
                         UpdateOrderStatus(s, orderId, Pending, Some(PendingManualDelivery)))
        else if handler == Returned(true) then
          var s1 := MarkCodesAsUsed(s, codes, o.userId);
          ProcessOutcome(ProcessResult(true, true, None, false, false),
                         UpdateOrderStatus(s1, orderId, Completed, Some(Delivered)))
        else
          ProcessOutcome(ProcessResult(false, false, Some(DeliveryFailedError), false, true),
                         UpdateOrderStatus(s, orderId, Pending, Some(DeliveryFailed)))
  }

  /** The three-way delivery outcome of a non-completed order that has codes:
      success consumes exactly its reserved items and completes it; a
      failure or an exception leaves every item as it was, keeps the order
      pending as delivery_failed and allows a retry; no usable handler
      leaves the items alone and asks for manual delivery. */
  lemma ProcessDeliveryOutcomes(cfg: Config, s: Store, orderId: nat, handler: HandlerOutcome)
    requires orderId < |s.orders| && s.orders[orderId].status != Completed
    requires |ReservedCodes(s, orderId)| > 0
    ensures var r := ProcessOrder(cfg, s, orderId, handler);
      var o := r.store.orders[orderId];
      && (handler.NoHandler? || !cfg.autoDeliveryEnabled ==>
            && r.store.stock == s.stock && o.status == Pending && o.deliveryStatus == PendingManualDelivery
            && r.result.success && r.result.manualDeliveryRequired && !r.result.delivered)
      && (cfg.autoDeliveryEnabled && handler == Returned(true) ==>
            && o.status == Completed && o.deliveryStatus == Delivered
            && (forall j :: 0 <= j < |s.stock| ==>
                  r.store.stock[j] == (if s.stock[j].reservedFor == Some(orderId)
                                       then s.stock[j].(isAvailable := false, usedBy := Some(s.orders[orderId].userId))
                                       else s.stock[j])))
      && (cfg.autoDeliveryEnabled && (handler == Returned(false) || handler.Raised?) ==>
            && r.store.stock == s.stock && o.status == Pending && o.deliveryStatus == DeliveryFailed
            && !r.result.success && r.result.retryPossible)
  {
  }

  /** An order with nothing reserved becomes failed/no_codes, whatever the
      handler, unless it was already completed. */
  lemma ProcessWithoutCodesFails(cfg: Config, s: Store, orderId: nat, handler: HandlerOutcome)
    requires orderId < |s.orders| && s.orders[orderId].status != Completed
    requires forall j :: 0 <= j < |s.stock| ==> s.stock[j].reservedFor != Some(orderId)
    ensures var r := ProcessOrder(cfg, s, orderId, handler);
      && r.store.orders[orderId].status == Failed
      && r.store.orders[orderId].deliveryStatus == NoCodes
      && r.result.error == Some(NoCodesReserved)
      && r.store.stock == s.stock
  {
  }

  // ---------------------------------------------------------------------
  // Cancellation
  // ---------------------------------------------------------------------

  datatype CancelError = CancellationDisabled | CancelNotFound | CannotCancelCompleted | AlreadyCancelled

  datatype CancelResult = CancelResult(success: bool, refunded: bool, error: Option<CancelError>)

  datatype CancelOutcome = CancelOutcome(result: CancelResult, store: Store)

  /** `cancel_order`. */
  function CancelOrder(cfg: Config, s: Store, orderId: nat, refund: bool): (r: CancelOutcome)
    // refused, with no change, when disabled, unknown, completed or cancelled
    ensures !r.result.success <==>
      (!cfg.enableOrderCancellation || orderId >= |s.orders|
       || s.orders[orderId].status == Completed || s.orders[orderId].status == Cancelled)
    ensures !r.result.success ==> r.store == s && !r.result.refunded
    ensures r.result.success ==>
      var o := s.orders[orderId];
      // every reservation for the order is cleared, nothing else in stock changes
      && |r.store.stock| == |s.stock|
      && (forall j :: 0 <= j < |s.stock| ==>
            r.store.stock[j] == (if s.stock[j].reservedFor == Some(orderId)
                                 then s.stock[j].(reservedFor := None) else s.stock[j]))
      // the refund is paid exactly under the three conditions (and a positive price)
      && (r.result.refunded <==>
            refund && cfg.enableRefund && o.paymentMethod == "balance" && o.totalPrice > 0)
      && Balance(r.store, o.userId) == Balance(s, o.userId) + (if r.result.refunded then o.totalPrice else 0)
      && (forall v :: v != o.userId ==> Balance(r.store, v) == Balance(s, v))
      // the order ends cancelled, its delivery sub-state kept
      && |r.store.orders| == |s.orders|
      && r.store.orders[orderId] == o.(status := Cancelled)
      && (forall j :: 0 <= j < |s.orders| && j != orderId ==> r.store.orders[j] == s.orders[j])
    ensures r.store.topups == s.topups
  {
    if !cfg.enableOrderCancellation then
      CancelOutcome(CancelResult(false, false, Some(CancellationDisabled)), s)
    else match GetOrder(s, orderId)
      case None => CancelOutcome(CancelResult(false, false, Some(CancelNotFound)), s)
      case Some(o) =>
        if o.status == Completed then CancelOutcome(CancelResult(false, false, Some(CannotCancelCompleted)), s)
        else if o.status == Cancelled then CancelOutcome(CancelResult(false, false, Some(AlreadyCancelled)), s)
        else
          var s1 := ReleaseReservation(s, orderId);
          var c := if refund && cfg.enableRefund && o.paymentMethod == "balance"
                   then AddBalance(s1, o.userId, o.totalPrice) else Credit(None, s1);
          CancelOutcome(CancelResult(true, c.newBalance.Some?, None),
                        UpdateOrderStatus(c.store, orderId, Cancelled, None))
  }

  /** Double refund: an order that failed for short stock was already
      refunded when it was created, yet cancelling it refunds it again, so
      the buyer ends with more than they started with. */
  lemma FailedOrderRefundedTwice(cfg: Config, s: Store, userId: UserId, packageType: string, oracle: CreateOracle)
    requires CreateNewOrder(cfg, s, userId, packageType, "balance", oracle).result.StockShort?
    requires cfg.enableOrderCancellation && cfg.enableRefund && PriceOf(cfg, packageType) > 0
    ensures var r := CreateNewOrder(cfg, s, userId, packageType, "balance", oracle);
      var c := CancelOrder(cfg, r.store, r.result.orderId, true);
      && c.result.success && c.result.refunded
      && Balance(c.store, userId) == Balance(s, userId) + PriceOf(cfg, packageType)
  {
    var r := CreateNewOrder(cfg, s, userId, packageType, "balance", oracle);
    var o := r.store.orders[r.result.orderId];
    assert o.userId == userId && o.totalPrice == PriceOf(cfg, packageType) && o.paymentMethod == "balance";
  }

  /** A cancelled order is not terminal for processing: cancellation
      released its codes, so processing it again rewrites it to
      failed/no_codes. */
  lemma CancelledOrderOverwritten(cfg: Config, s: Store, orderId: nat, refund: bool, handler: HandlerOutcome)
    requires CancelOrder(cfg, s, orderId, refund).result.success
    ensures var c := CancelOrder(cfg, s, orderId, refund);
      var p := ProcessOrder(cfg, c.store, orderId, handler);
      && c.store.orders[orderId].status == Cancelled
      && p.store.orders[orderId].status == Failed
      && p.store.orders[orderId].deliveryStatus == NoCodes
  {
    var c := CancelOrder(cfg, s, orderId, refund);
    ProcessWithoutCodesFails(cfg, c.store, orderId, handler);
  }

  // ---------------------------------------------------------------------
  // Retry
  // ---------------------------------------------------------------------

  datatype RetryResult = RetryNotFound | AlreadyCompletedOrder | Retried(processed: ProcessResult)

  datatype RetryOutcome = RetryOutcome(result: RetryResult, store: Store)

  /** `retry_order_delivery`: answers a completed order itself, otherwise
      processes it again. */
  function RetryOrderDelivery(cfg: Config, s: Store, orderId: nat, handler: HandlerOutcome): (r: RetryOutcome)
    ensures r.result.RetryNotFound? <==> orderId >= |s.orders|
    ensures r.result.AlreadyCompletedOrder? <==> orderId < |s.orders| && s.orders[orderId].status == Completed
    ensures !r.result.Retried? ==> r.store == s
    ensures r.result.Retried? ==> r == RetryOutcome(Retried(ProcessOrder(cfg, s, orderId, handler).result),
                                                    ProcessOrder(cfg, s, orderId, handler).store)
  {
    match GetOrder(s, orderId)
    case None => RetryOutcome(RetryNotFound, s)
    case Some(o) =>
      if o.status == Completed then RetryOutcome(AlreadyCompletedOrder, s)
      else
        var p := ProcessOrder(cfg, s, orderId, handler);
        RetryOutcome(Retried(p.result), p.store)
  }

  /** A completed order is terminal: processing, retrying and cancelling it
      all leave the store exactly as it was. */
  lemma CompletedIsTerminal(cfg: Config, s: Store, orderId: nat, handler: HandlerOutcome, refund: bool)
    requires orderId < |s.orders| && s.orders[orderId].status == Completed
    ensures ProcessOrder(cfg, s, orderId, handler).store == s
    ensures RetryOrderDelivery(cfg, s, orderId, handler).store == s
    ensures CancelOrder(cfg, s, orderId, refund).store == s
    ensures !CancelOrder(cfg, s, orderId, refund).result.success
  {
  }

  // ---------------------------------------------------------------------
  // Pending sweep
  // ---------------------------------------------------------------------

  /** An order the sweep picks up: pending and not yet delivered. */
  predicate IsSweepable(o: Order) {
    o.status == Pending && o.deliveryStatus != Delivered
  }

  /** Ids of the sweepable orders at or after `from`, in id order. */
  function SweepableFrom(orders: seq<Order>, from: nat): (ids: seq<nat>)
    requires from <= |orders|
    ensures forall i :: 0 <= i < |ids| ==> from <= ids[i] < |orders| && IsSweepable(orders[ids[i]])
    ensures forall j :: from <= j < |orders| && IsSweepable(orders[j]) ==> j in ids
    ensures forall i, k :: 0 <= i < k < |ids| ==> ids[i] < ids[k]
    decreases |orders| - from
  {
    if from == |orders| then []
    else if IsSweepable(orders[from]) then [from] + SweepableFrom(orders, from + 1)
    else SweepableFrom(orders, from + 1)
  }

  /** The query of `process_pending_orders`: sweepable orders in id order,
      at most `maxOrders` of them; any sweepable order left out comes after
      every one picked. (The query orders by creation time; see
      `SelectPendingOldestFirst` for when the two orders agree.) */
  function SelectPending(s: Store, maxOrders: nat): (ids: seq<nat>)
    ensures |ids| <= maxOrders
    ensures forall i :: 0 <= i < |ids| ==> ids[i] < |s.orders| && IsSweepable(s.orders[ids[i]])
    ensures forall i, k :: 0 <= i < k < |ids| ==> ids[i] < ids[k]
    ensures forall j :: 0 <= j < |s.orders| && IsSweepable(s.orders[j]) && j !in ids ==>
      |ids| == maxOrders && forall i :: 0 <= i < |ids| ==> ids[i] < j
  {
    var all := SweepableFrom(s.orders, 0);
    if |all| <= maxOrders then all else all[..maxOrders]
  }

  /** Creation times never decrease along the orders table. */
  ghost predicate CreatedInOrder(orders: seq<Order>) {
    forall i, j :: 0 <= i < j < |orders| ==> orders[i].createdAt <= orders[j].createdAt
  }

  /** Creating an order at a time no earlier than the last order's keeps
      creation times in id order, whatever the outcome. */
  lemma CreateKeepsCreationOrder(cfg: Config, s: Store, userId: UserId, packageType: string,
                                 paymentMethod: string, oracle: CreateOracle)
    requires CreatedInOrder(s.orders)
    requires |s.orders| > 0 ==> s.orders[|s.orders| - 1].createdAt <= oracle.createdAt
    ensures CreatedInOrder(CreateNewOrder(cfg, s, userId, packageType, paymentMethod, oracle).store.orders)
  {
    var r := CreateNewOrder(cfg, s, userId, packageType, paymentMethod, oracle);
    var n := |s.orders|;
    if |r.store.orders| > n {
      assert r.store.orders[n].createdAt == oracle.createdAt;
      forall i, j | 0 <= i < j < |r.store.orders|
        ensures r.store.orders[i].createdAt <= r.store.orders[j].createdAt
      {
        assert r.store.orders[i] == s.orders[i];
        if j < n {
          assert r.store.orders[j] == s.orders[j];
        } else {
          assert s.orders[i].createdAt <= s.orders[n - 1].createdAt;
        }
      }
    } else {
      assert r.store.orders == s.orders;
    }
  }

  /** Processing an order never changes a creation time. */
  lemma ProcessKeepsCreationOrder(cfg: Config, s: Store, orderId: nat, handler: HandlerOutcome)
    requires CreatedInOrder(s.orders)
    ensures CreatedInOrder(ProcessOrder(cfg, s, orderId, handler).store.orders)
  {
    var r := ProcessOrder(cfg, s, orderId, handler);
    assert forall j :: 0 <= j < |s.orders| ==> r.store.orders[j].createdAt == s.orders[j].createdAt;
  }

  /** When creation times never decrease with id, the sweep takes the
      pending orders oldest first, and every sweepable order it leaves
      behind was created no earlier than any order it picked, as the query
      `ORDER BY created_at ASC LIMIT n` does. */
  lemma SelectPendingOldestFirst(s: Store, maxOrders: nat)
    requires CreatedInOrder(s.orders)
    ensures var ids := SelectPending(s, maxOrders);
      && (forall i, k :: 0 <= i < k < |ids| ==> s.orders[ids[i]].createdAt <= s.orders[ids[k]].createdAt)
      && (forall j :: 0 <= j < |s.orders| && IsSweepable(s.orders[j]) && j !in ids ==>
            forall i :: 0 <= i < |ids| ==> s.orders[ids[i]].createdAt <= s.orders[j].createdAt)
  {
  }

  /** A result the sweep counts as a success. */
  predicate CountsAsSuccess(r: ProcessResult) {
    r.success && r.delivered
  }

  function CountSuccesses(rs: seq<ProcessResult>): (n: nat)
    ensures n <= |rs|
  {
    if |rs| == 0 then 0
    else CountSuccesses(rs[..|rs| - 1]) + (if CountsAsSuccess(rs[|rs| - 1]) then 1 else 0)
  }

  datatype Batch = Batch(results: seq<ProcessResult>, store: Store)

  /** Processing `ids` one after another, the i-th with handler outcome
      `handlerFor(i)`. */
  function RunBatch(cfg: Config, s: Store, ids: seq<nat>, handlerFor: nat -> HandlerOutcome): (b: Batch)
    ensures |b.results| == |ids|
    decreases |ids|
  {
    if |ids| == 0 then Batch([], s)
    else
      var prev := RunBatch(cfg, s, ids[..|ids| - 1], handlerFor);
      var p := ProcessOrder(cfg, prev.store, ids[|ids| - 1], handlerFor(|ids| - 1));
      Batch(prev.results + [p.result], p.store)
  }

  /** One more id extends the batch by that order's processing. */
  lemma RunBatchNext(cfg: Config, s: Store, ids: seq<nat>, k: nat, handlerFor: nat -> HandlerOutcome)
    requires k < |ids|
    ensures var prev := RunBatch(cfg, s, ids[..k], handlerFor);
      var p := ProcessOrder(cfg, prev.store, ids[k], handlerFor(k));
      RunBatch(cfg, s, ids[..k + 1], handlerFor) == Batch(prev.results + [p.result], p.store)
  {
    assert ids[..k + 1][..k] == ids[..k];
  }

  /** `process_pending_orders`: processes the selected orders in order and
      counts them; every processed order is either a success (success and
      delivered) or a failure. */
  method ProcessPendingOrders(cfg: Config, s: Store, handlerFor: nat -> HandlerOutcome, maxOrders: nat)
    returns (processed: nat, success: nat, failed: nat, results: seq<ProcessResult>, store: Store)
    ensures processed == |SelectPending(s, maxOrders)| && processed <= maxOrders
    ensures processed == success + failed
    ensures success == CountSuccesses(results)
    ensures Batch(results, store) == RunBatch(cfg, s, SelectPending(s, maxOrders), handlerFor)
  {
    var ids := SelectPending(s, maxOrders);
    processed, success, failed := 0, 0, 0;
    results := [];
    store := s;
    while processed < |ids|
      invariant processed <= |ids|
      invariant processed == success + failed
      invariant Batch(results, store) == RunBatch(cfg, s, ids[..processed], handlerFor)
      invariant success == CountSuccesses(results)
    {
      var p := ProcessOrder(cfg, store, ids[processed], handlerFor(processed));
      RunBatchNext(cfg, s, ids, processed, handlerFor);
      var before := results;
      results := results + [p.result];
      store := p.store;
      assert results[..|before|] == before;
      if p.result.success && p.result.delivered {
        success := success + 1;
      } else {
        failed := failed + 1;
      }
      processed := processed + 1;
    }
    assert ids[..processed] == ids;
  }
}
