/**
 The test client's conventions for simulated payment notifications: the
 signature input, the default top-up order id, the three payload kinds,
 and the order-id parser, which undoes the default id.
 */
module Trigger {
  import opened Wrappers
  import opened Text
  import Webhook

  /** The hash function (SHA-512, hex encoded) is not part of this model. */
  type Digest = string -> string

  /** The text the signature is computed over: order id, status code, gross
      amount and server key, concatenated in that order. */
  function SignatureInput(orderId: string, statusCode: string, grossAmount: string, serverKey: string): (r: string)
    ensures |r| == |orderId| + |statusCode| + |grossAmount| + |serverKey|
    ensures r[..|orderId|] == orderId
    ensures r[|orderId|..|orderId| + |statusCode|] == statusCode
    ensures r[|orderId| + |statusCode|..|orderId| + |statusCode| + |grossAmount|] == grossAmount
    ensures r[|r| - |serverKey|..] == serverKey
  {
    orderId + statusCode + grossAmount + serverKey
  }

  /** `generate_signature`: the digest of the four fields run together,
      with nothing between them. */
  function GenerateSignature(digest: Digest, orderId: string, statusCode: string,
                             grossAmount: string, serverKey: string): (r: string)
    ensures r == digest(orderId + statusCode + grossAmount + serverKey)
  {
    digest(SignatureInput(orderId, statusCode, grossAmount, serverKey))
  }

  /** With no separator between the fields, moving a character from the end
      of the order id to the front of the status code keeps the signature:
      the signature binds the concatenation, not the fields. */
  lemma SignatureIgnoresFieldBoundary(digest: Digest, orderId: string, c: char, statusCode: string,
                                      grossAmount: string, serverKey: string)
    ensures GenerateSignature(digest, orderId + [c], statusCode, grossAmount, serverKey)
            == GenerateSignature(digest, orderId, [c] + statusCode, grossAmount, serverKey)
  {
    assert orderId + [c] + statusCode + grossAmount + serverKey
        == orderId + ([c] + statusCode) + grossAmount + serverKey;
  }

  /** The dash-separated pieces of `TOPUP-<str(user)>-<timestamp>`: three
      pieces for a non-negative user and a dash-free timestamp; an empty
      second piece for a negative user, whose minus sign is read as a dash. */
  lemma TopupIdPieces(userId: int, timestamp: string)
    ensures userId >= 0 && '-' !in timestamp ==>
      Split("TOPUP-" + IntToString(userId) + "-" + timestamp, '-') == ["TOPUP", NatToString(userId), timestamp]
    ensures userId < 0 ==>
      var parts := Split("TOPUP-" + IntToString(userId) + "-" + timestamp, '-');
      |parts| >= 2 && parts[1] == ""
  {
    var id := "TOPUP-" + IntToString(userId) + "-" + timestamp;
    if userId >= 0 {
      var digits := NatToString(userId);
      assert '-' !in digits;
      assert id == "TOPUP" + "-" + digits + "-" + timestamp;
      if '-' !in timestamp {
        SplitThree("TOPUP", digits, timestamp, '-');
      }
    } else {
      var rest := NatToString(-userId) + "-" + timestamp;
      assert id == "TOPUP" + "-" + ("" + "-" + rest);
      SplitAfterPiece("TOPUP", '-', "" + "-" + rest);
      SplitAfterPiece("", '-', rest);
    }
  }

  /** The default order id `TOPUP-<user>-<timestamp>`: it starts with the
      top-up prefix, and splits at the dashes back into the prefix, the
      user and the timestamp when the user is non-negative and the
      timestamp has no dash. */
  function DefaultOrderId(userId: int, timestamp: string): (r: string)
    ensures StartsWith(r, Webhook.TopupPrefix)
    ensures userId >= 0 && '-' !in timestamp ==> Split(r, '-') == ["TOPUP", NatToString(userId), timestamp]
    ensures userId < 0 ==> |Split(r, '-')| >= 2 && Split(r, '-')[1] == ""
  {
    TopupIdPieces(userId, timestamp);
    var r := "TOPUP-" + IntToString(userId) + "-" + timestamp;
    assert r[..6] == "TOPUP-";
    r
  }

  datatype PayloadKind = SuccessPayload | PendingPayload | FailedPayload

  /** The fields of a simulated notification that the model keeps (times
      and constant decoration are left out). */
  datatype Payload = Payload(
    transactionStatus: string,
    transactionId: string,
    statusCode: string,
    signatureKey: string,
    paymentType: string,
    orderId: string,
    grossAmount: string)

  /** `create_success_payload`, `create_pending_payload` and
      `create_failed_payload`: a missing or empty order id becomes the
      default top-up id; the status code and transaction status depend on
      the kind; the amount is written with `str`; the signature is computed
      over this payload's own order id, status code and amount. `now` is the
      clock in whole seconds. */
  function CreatePayload(kind: PayloadKind, digest: Digest, userId: int, amount: int, serverKey: string,
                         orderId: Option<string>, timestamp: string, now: int): (p: Payload)
    ensures orderId.Some? && orderId.value != "" ==> p.orderId == orderId.value
    ensures orderId.None? || orderId.value == "" ==> p.orderId == DefaultOrderId(userId, timestamp)
    ensures p.grossAmount == IntToString(amount) && ParseInt(p.grossAmount) == Some(amount)
    ensures p.transactionId == "test-" + IntToString(now)
    ensures p.signatureKey == GenerateSignature(digest, p.orderId, p.statusCode, p.grossAmount, serverKey)
    ensures (p.statusCode, p.transactionStatus) ==
            match kind
            case SuccessPayload => ("200", "settlement")
            case PendingPayload => ("201", "pending")
            case FailedPayload => ("202", "deny")
    ensures p.paymentType == "qris"
  {
    var id := if orderId.None? || orderId.value == "" then DefaultOrderId(userId, timestamp) else orderId.value;
    var (code, status) := match kind
      case SuccessPayload => ("200", "settlement")
      case PendingPayload => ("201", "pending")
      case FailedPayload => ("202", "deny");
    var gross := IntToString(amount);
    ParseIntToString(amount);
    Payload(status, "test-" + IntToString(now), code,
            GenerateSignature(digest, id, code, gross, serverKey), "qris", id, gross)
  }

  /** `str` then `int` gives back any integer. */
  lemma ParseIntToString(i: int)
    ensures ParseInt(IntToString(i)) == Some(i)
  {
    if i < 0 {
      ParseNegative(i);
    } else {
      ParseNatToString(i);
    }
  }

  lemma ParseNegative(i: int)
    requires i < 0
    ensures ParseInt("-" + NatToString(-i)) == Some(i)
  {
    var n: nat := -i;
    var digits := NatToString(n);
    var s := "-" + digits;
    assert !IsSpace(s[0]) && !IsSpace(s[|s| - 1]);
    StripUnchanged(s);
    assert Strip(s) == s;
    assert s[1..] == digits;
    assert IsDigitBody(digits);
    NatToStringValue(n);
    var v: int := DigitsValue(digits);
    assert v == n;
    assert ParseInt(s) == Some(-v);
  }

  /** `extract_info_from_order_id`'s dictionary. */
  datatype OrderInfo = OrderInfo(userId: Option<int>, timestamp: Option<string>, valid: bool)

  /** `extract_info_from_order_id`: with at least three dash-separated
      pieces whose second reads as an integer, that integer and the third
      piece; otherwise nothing. */
  function ExtractInfoFromOrderId(orderId: string): (info: OrderInfo)
    ensures info.valid <==> |Split(orderId, '-')| >= 3 && ParseInt(Split(orderId, '-')[1]).Some?
    ensures info.valid ==>
      info.userId == ParseInt(Split(orderId, '-')[1]) && info.timestamp == Some(Split(orderId, '-')[2])
    ensures !info.valid ==> info.userId.None? && info.timestamp.None?
  {
    var parts := Split(orderId, '-');
    if |parts| >= 3 then
      match ParseInt(parts[1])
      case Some(u) => OrderInfo(Some(u), Some(parts[2]), true)
      case None => OrderInfo(None, None, false)
    else OrderInfo(None, None, false)
  }

  /** The client's parser and the webhook's read the same user out of any
      order id. */
  lemma ExtractAgreesWithWebhook(orderId: string)
    ensures ExtractInfoFromOrderId(orderId).valid <==> Webhook.IdUser(orderId).Some?
    ensures ExtractInfoFromOrderId(orderId).userId == Webhook.IdUser(orderId)
  {
  }

  /** Round trip: the default id of a non-negative user and a dash-free
      timestamp parses back to that user and timestamp. */
  lemma ExtractDefaultOrderId(userId: nat, timestamp: string)
    requires '-' !in timestamp
    ensures ExtractInfoFromOrderId(DefaultOrderId(userId, timestamp))
            == OrderInfo(Some(userId), Some(timestamp), true)
  {
    ParseNatToString(userId);
  }

  /** A negative user id does not survive: its minus sign becomes a
      separator, leaving an empty second piece that `int()` rejects. */
  lemma NegativeUserIdLost(userId: int, timestamp: string)
    requires userId < 0
    ensures !ExtractInfoFromOrderId(DefaultOrderId(userId, timestamp)).valid
  {
    assert Strip("") == "";
  }
}
