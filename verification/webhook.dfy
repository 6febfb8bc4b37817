/**
 Top-up reconciliation: the payment-notification endpoint and the handler
 that credits a balance when a top-up settles. The notification parser and
 signature check live in a module outside this model; their verdict arrives
 here as an already-parsed notification.
 */
module Webhook {
  import opened Wrappers
  import opened Text
  import opened Store

  /** What the notification parser hands back for a JSON body. `status` is
      the parser's normalised status ("success", "pending", "failed", ...),
      `grossAmount` the amount as text. */
  datatype Notification = Notification(
    valid: bool,
    orderId: string,
    status: string,
    grossAmount: string,
    paymentType: Option<string>,
    transactionId: Option<string>)

  /** An HTTP reply: code and the `status` and `message` fields of its body. */
  datatype Response = Response(code: nat, status: string, message: string)

  datatype Handled = Handled(response: Response, store: Store)

  datatype Credited = Credited(ok: bool, store: Store)

  const TopupPrefix: string := "TOPUP-"

  /** The user id embedded in an order id `<KIND>-<user>-<timestamp>`: the
      second dash-separated piece read as an integer, when there are at
      least three pieces. */
  function IdUser(orderId: string): (r: Option<UserId>)
    ensures r.Some? <==> |Split(orderId, '-')| >= 3 && ParseInt(Split(orderId, '-')[1]).Some?
    ensures r.Some? ==> r == ParseInt(Split(orderId, '-')[1])
  {
    var parts := Split(orderId, '-');
    if |parts| < 3 then None else ParseInt(parts[1])
  }

  /** Nothing but the top-up table changed. */
  predicate OnlyTopups(s: Store, r: Store) {
    r.balances == s.balances && r.stock == s.stock && r.orders == s.orders
  }

  /** `handle_payment_success`: parse the user out of the order id; for a
      top-up not yet marked success, upsert its row, credit the amount and
      mark it success (or failed when the credit is refused); for any other
      kind of order only mark it success. */
  function HandlePaymentSuccess(s: Store, orderId: string, amount: int,
                                paymentType: Option<string>, transactionId: Option<string>): (r: Credited)
    ensures IdUser(orderId).None? ==> !r.ok && r.store == s
    ensures IdUser(orderId).Some? && !StartsWith(orderId, TopupPrefix) ==>
      r.ok && OnlyTopups(s, r.store) && r.store == UpdateTopupStatus(s, orderId, TopupSuccess)
    ensures orderId in s.topups && s.topups[orderId].status == TopupSuccess ==> r.store == s
    // a top-up already marked success is acknowledged as handled
    ensures IdUser(orderId).Some? && orderId in s.topups && s.topups[orderId].status == TopupSuccess ==> r.ok
    // no other top-up row appears, disappears or changes
    ensures forall k :: k != orderId ==>
      && (k in r.store.topups <==> k in s.topups)
      && (k in s.topups ==> r.store.topups[k] == s.topups[k])
    ensures forall u :: u != IdUser(orderId).GetOr(u) ==> Balance(r.store, u) == Balance(s, u)
    ensures r.store.stock == s.stock && r.store.orders == s.orders
    ensures IdUser(orderId).Some? && StartsWith(orderId, TopupPrefix)
            && !(orderId in s.topups && s.topups[orderId].status == TopupSuccess) ==>
      && orderId in r.store.topups
      && r.store.topups[orderId].userId == IdUser(orderId).value
      && r.store.topups[orderId].amount == amount
      && r.store.topups[orderId].paymentType == paymentType.GetOr("qris")
      && r.store.topups[orderId].transactionId == transactionId
      && (r.ok <==> amount > 0)
      && r.store.topups[orderId].status == (if amount > 0 then TopupSuccess else TopupFailed)
      && Balance(r.store, IdUser(orderId).value)
         == Balance(s, IdUser(orderId).value) + (if amount > 0 then amount else 0)
  {
    match IdUser(orderId)
    case None => Credited(false, s)
    case Some(user) =>
      if !StartsWith(orderId, TopupPrefix) then
        Credited(true, UpdateTopupStatus(s, orderId, TopupSuccess))
      else if orderId in s.topups && s.topups[orderId].status == TopupSuccess then
        Credited(true, s)
      else
        var s1 := CreateTopup(s, orderId, user, amount, paymentType.GetOr("qris"), transactionId);
        var credit := AddBalance(s1, user, amount);
        if credit.newBalance.Some? then
          Credited(true, UpdateTopupStatus(credit.store, orderId, TopupSuccess))
        else
          Credited(false, UpdateTopupStatus(s1, orderId, TopupFailed))
  }

  /** `midtrans_webhook`: 400 without a JSON body or for a notification the
      parser rejects; otherwise dispatch on the status and answer 200. An
      amount that `int()` cannot read raises, which the endpoint turns into
      a 200 error reply with nothing changed. */
  function MidtransWebhook(s: Store, body: Option<Notification>): (r: Handled)
    ensures body.None? ==> r.response.code == 400 && r.store == s
    ensures body.Some? && !body.value.valid ==> r.response.code == 400 && r.store == s
    ensures r.response.code == 400 <==> body.None? || !body.value.valid
    ensures r.response.code != 400 ==> r.response.code == 200
    ensures r.response.status == "success" <==>
      body.Some? && body.value.valid && ParseInt(body.value.grossAmount).Some?
    ensures r.response.status != "success" ==> r.store == s
    ensures body.Some? && body.value.status != "success" ==> OnlyTopups(s, r.store)
    ensures body.Some? && body.value.valid && ParseInt(body.value.grossAmount).Some? ==>
      && (body.value.status == "success" ==>
            r.store == HandlePaymentSuccess(s, body.value.orderId, ParseInt(body.value.grossAmount).value,
                                            body.value.paymentType, body.value.transactionId).store)
      && (body.value.status == "pending" ==> r.store == UpdateTopupStatus(s, body.value.orderId, TopupPending))
      && (body.value.status == "failed" ==> r.store == UpdateTopupStatus(s, body.value.orderId, TopupFailed))
      && (body.value.status !in {"success", "pending", "failed"} ==> r.store == s)
  {
    match body
    case None => Handled(Response(400, "error", "No JSON data received"), s)
    case Some(n) =>
      if !n.valid then Handled(Response(400, "error", "Invalid signature or missing fields"), s)
      else
        match ParseInt(n.grossAmount)
        case None => Handled(Response(200, "error", "Internal server error"), s)
        case Some(amount) =>
          var s1 :=
            if n.status == "success" then
              HandlePaymentSuccess(s, n.orderId, amount, n.paymentType, n.transactionId).store
            else if n.status == "pending" then UpdateTopupStatus(s, n.orderId, TopupPending)
            else if n.status == "failed" then UpdateTopupStatus(s, n.orderId, TopupFailed)
            else s;
          Handled(Response(200, "success", "Notification processed"), s1)
  }

  /** The second of two back-to-back success notifications for the same
      order changes no balance: together they credit the amount at most
      once. */
  lemma CreditOnce(s: Store, orderId: string, amount: int,
                   paymentType: Option<string>, transactionId: Option<string>)
    ensures var s1 := HandlePaymentSuccess(s, orderId, amount, paymentType, transactionId).store;
      var s2 := HandlePaymentSuccess(s1, orderId, amount, paymentType, transactionId).store;
      && s2.balances == s1.balances
      && forall u :: Balance(s2, u) - Balance(s, u) == (if Balance(s1, u) != Balance(s, u) then amount else 0)
  {
    var s1 := HandlePaymentSuccess(s, orderId, amount, paymentType, transactionId).store;
    var s2 := HandlePaymentSuccess(s1, orderId, amount, paymentType, transactionId).store;
    if IdUser(orderId).Some? && StartsWith(orderId, TopupPrefix) {
      if !(orderId in s.topups && s.topups[orderId].status == TopupSuccess) && amount > 0 {
        assert s2 == s1;
      }
    }
  }

  /** A success notification delivered twice to the endpoint credits its
      amount at most once. */
  lemma RepeatedNotificationCreditsOnce(s: Store, n: Notification)
    requires n.valid && n.status == "success"
    ensures var s1 := MidtransWebhook(s, Some(n)).store;
      var s2 := MidtransWebhook(s1, Some(n)).store;
      && s2.balances == s1.balances
      && forall u :: Balance(s2, u) - Balance(s, u) == Balance(s1, u) - Balance(s, u)
  {
    match ParseInt(n.grossAmount)
    case None =>
    case Some(amount) =>
      CreditOnce(s, n.orderId, amount, n.paymentType, n.transactionId);
  }

  /** The guard reads only the current status, which pending and failed
      notifications overwrite: success, failed, success credits twice. */
  lemma SuccessFailedSuccessCreditsTwice(s: Store, user: nat, timestamp: string, amount: nat,
                                         paymentType: Option<string>, transactionId: Option<string>)
    requires amount > 0
    requires '-' !in timestamp
    requires var id := TopupPrefix + NatToString(user) + "-" + timestamp;
      !(id in s.topups && s.topups[id].status == TopupSuccess)
    ensures var id := TopupPrefix + NatToString(user) + "-" + timestamp;
      var paid := Notification(true, id, "success", NatToString(amount), paymentType, transactionId);
      var lost := Notification(true, id, "failed", NatToString(amount), paymentType, transactionId);
      var s1 := MidtransWebhook(s, Some(paid)).store;
      var s2 := MidtransWebhook(s1, Some(lost)).store;
      var s3 := MidtransWebhook(s2, Some(paid)).store;
      Balance(s3, user) == Balance(s, user) + 2 * amount
  {
    var id := TopupPrefix + NatToString(user) + "-" + timestamp;
    TopupIdUser(user, timestamp);
    ParseNatToString(amount);
  }

  /** The order id the test client builds for a top-up carries its user. */
  lemma TopupIdUser(user: nat, timestamp: string)
    requires '-' !in timestamp
    ensures var id := TopupPrefix + NatToString(user) + "-" + timestamp;
      IdUser(id) == Some(user) && StartsWith(id, TopupPrefix)
  {
    var id := TopupPrefix + NatToString(user) + "-" + timestamp;
    var digits := NatToString(user);
    assert '-' !in digits;
    assert id == "TOPUP" + "-" + digits + "-" + timestamp;
    SplitThree("TOPUP", digits, timestamp, '-');
    ParseNatToString(user);
    assert id[..|TopupPrefix|] == TopupPrefix;
  }
}
