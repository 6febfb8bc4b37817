/**
 Delivery policy: how reserved codes reach a buyer. The Discord calls
 themselves are outside this model; what each send does is given by an
 oracle naming, for one attempt, the outcome of a send over each route.
 */
module Delivery {
  import opened Wrappers
  import opened Text
  import opened Config

  /** The Discord calls of one attempt: looking the buyer up for a DM, and
      the three ways a send can go out (a file by DM includes its own
      lookup of the buyer). */
  datatype Route = FetchUser | DirectMessage | FileByDm | PublicChannel

  /** The outcome of one call; for `FetchUser`, `Sent` means the user was
      found and `SendFailed` carries the "User not found" reply or the
      exception's text. */
  datatype Send = Sent | SendFailed(error: string)

  /** The outcomes of the calls of one attempt, by route. */
  type Sends = Route -> Send

  /** The dictionary a delivery method returns; `via` is its `method` key. */
  datatype DeliveryResult = DeliveryResult(success: bool, via: string, error: Option<string>)

  /** Above this many characters the DM code list is sent as a file. */
  const DmListLimit: nat := 4000

  /** At most this many codes are tried as a plain DM by `smart_delivery`. */
  const SmartDmMaxCodes: nat := 10

  /** Seconds added to the wait after each failed attempt. */
  const BackoffStep: nat := 5

  /** A code in backticks, as the DM list shows it. */
  function Quoted(codes: seq<string>): (q: seq<string>)
    ensures |q| == |codes|
    ensures forall i :: 0 <= i < |codes| ==> q[i] == "`" + codes[i] + "`"
  {
    seq(|codes|, i requires 0 <= i < |codes| => "`" + codes[i] + "`")
  }

  /** The DM's code list: the quoted codes, one per line. */
  function CodeList(codes: seq<string>): string {
    Join(Quoted(codes), '\n')
  }

  /** The total length of the quoted codes. */
  function QuotedWidth(codes: seq<string>): nat
    decreases |codes|
  {
    if |codes| == 0 then 0 else QuotedWidth(codes[..|codes| - 1]) + |codes[|codes| - 1]| + 2
  }

  /** The code list is the quoted codes plus one newline between each two. */
  lemma {:induction false} CodeListLength(codes: seq<string>)
    requires |codes| > 0
    ensures |CodeList(codes)| == QuotedWidth(codes) + |codes| - 1
    decreases |codes|
  {
    if |codes| > 1 {
      var rest := codes[1..];
      CodeListLength(rest);
      assert Quoted(codes)[1..] == Quoted(rest);
      QuotedWidthFront(codes);
    }
  }

  /** The width splits as first code plus the rest. */
  lemma {:induction false} QuotedWidthFront(codes: seq<string>)
    requires |codes| > 0
    ensures QuotedWidth(codes) == |codes[0]| + 2 + QuotedWidth(codes[1..])
    decreases |codes|
  {
    if |codes| > 1 {
      var front := codes[..|codes| - 1];
      QuotedWidthFront(front);
      assert front[1..] == codes[1..][..|codes| - 2];
    }
  }

  /** Codes at least `w` long make the quoted width at least `(w + 2)` per code. */
  lemma {:induction false} QuotedWidthAtLeast(codes: seq<string>, w: nat)
    requires forall i :: 0 <= i < |codes| ==> |codes[i]| >= w
    ensures QuotedWidth(codes) >= |codes| * (w + 2)
    decreases |codes|
  {
    if |codes| > 0 {
      QuotedWidthAtLeast(codes[..|codes| - 1], w);
    }
  }

  predicate TooLongForDm(codes: seq<string>) {
    |CodeList(codes)| > DmListLimit
  }

  /** Ten codes of 400 characters, well inside the accepted code lengths,
      already overflow the DM list. */
  lemma TenLongCodesOverflow(codes: seq<string>)
    requires |codes| == SmartDmMaxCodes
    requires forall i :: 0 <= i < |codes| ==> |codes[i]| >= 400
    ensures TooLongForDm(codes)
  {
    CodeListLength(codes);
    QuotedWidthAtLeast(codes, 400);
  }

  function Outcome(send: Send, via: string): (r: DeliveryResult)
    ensures r.success <==> send.Sent?
    ensures r.via == via
    ensures r.error.Some? <==> send.SendFailed?
  {
    match send
    case Sent => DeliveryResult(true, via, None)
    case SendFailed(e) => DeliveryResult(false, via, Some(e))
  }

  /** `deliver_via_file` with no channel: the codes as a file in a DM. */
  function DeliverViaFile(sent: Sends): (r: DeliveryResult)
    ensures r.via == "file" && (r.success <==> sent(FileByDm).Sent?)
  {
    Outcome(sent(FileByDm), "file")
  }

  /** `deliver_via_channel`: the codes as a file in the public channel. */
  function DeliverViaChannel(sent: Sends): (r: DeliveryResult)
    ensures r.via == "channel" && (r.success <==> sent(PublicChannel).Sent?)
  {
    Outcome(sent(PublicChannel), "channel")
  }

  /** `deliver_via_dm`: looks the buyer up first and fails as a dm
      delivery when that fails; then sends the code list in a DM, or a file
      when the list is longer than the limit. */
  function DeliverViaDm(codes: seq<string>, sent: Sends): (r: DeliveryResult)
    ensures sent(FetchUser).SendFailed? ==>
      r.via == "dm" && !r.success && r.error == Some(sent(FetchUser).error)
    ensures sent(FetchUser).Sent? && TooLongForDm(codes) ==> r == DeliverViaFile(sent)
    ensures sent(FetchUser).Sent? && !TooLongForDm(codes) ==>
      r.via == "dm" && (r.success <==> sent(DirectMessage).Sent?)
    ensures r.success <==>
      && sent(FetchUser).Sent?
      && (if TooLongForDm(codes) then sent(FileByDm).Sent? else sent(DirectMessage).Sent?)
  {
    if sent(FetchUser).SendFailed? then Outcome(sent(FetchUser), "dm")
    else if |CodeList(codes)| > DmListLimit then DeliverViaFile(sent)
    else Outcome(sent(DirectMessage), "dm")
  }

  /** `smart_delivery`: a plain DM for small orders, then a file by DM, then
      the public channel, stopping at the first success; the channel's
      result is returned whatever it is. */
  function SmartDelivery(codes: seq<string>, sent: Sends): (r: DeliveryResult)
    ensures |codes| <= SmartDmMaxCodes && DeliverViaDm(codes, sent).success ==> r == DeliverViaDm(codes, sent)
    ensures r.via == "file" ==> r.success && sent(FileByDm).Sent?
    ensures r.via == "channel" <==>
      !(|codes| <= SmartDmMaxCodes && DeliverViaDm(codes, sent).success) && !sent(FileByDm).Sent?
    ensures r.via == "channel" ==> r == DeliverViaChannel(sent)
    ensures r.success <==>
      (|codes| <= SmartDmMaxCodes && sent(FetchUser).Sent? && !TooLongForDm(codes) && sent(DirectMessage).Sent?)
      || sent(FileByDm).Sent? || sent(PublicChannel).Sent?
  {
    var dm := if |codes| <= SmartDmMaxCodes then Some(DeliverViaDm(codes, sent)) else None;
    if dm.Some? && dm.value.success then dm.value
    else
      var file := DeliverViaFile(sent);
      if file.success then file
      else DeliverViaChannel(sent)
  }

  /** One attempt of `deliver_with_retry`: the configured method, with
      anything other than dm, channel or file meaning smart delivery. */
  function Attempt(cfg: Config, codes: seq<string>, sent: Sends): (r: DeliveryResult)
    ensures cfg.deliveryMethod == "dm" ==> r == DeliverViaDm(codes, sent)
    ensures cfg.deliveryMethod == "channel" ==> r == DeliverViaChannel(sent)
    ensures cfg.deliveryMethod == "file" ==> r == DeliverViaFile(sent)
    ensures cfg.deliveryMethod !in {"dm", "channel", "file"} ==> r == SmartDelivery(codes, sent)
  {
    if cfg.deliveryMethod == "dm" then DeliverViaDm(codes, sent)
    else if cfg.deliveryMethod == "channel" then DeliverViaChannel(sent)
    else if cfg.deliveryMethod == "file" then DeliverViaFile(sent)
    else SmartDelivery(codes, sent)
  }

  /** The waits after the first `n` failed attempts. */
  function Backoff(n: nat): (w: seq<nat>)
    ensures |w| == n
    decreases n
  {
    if n == 0 then [] else Backoff(n - 1) + [n * BackoffStep]
  }

  /** The wait after failed attempt k is k times the step: linear backoff. */
  lemma {:induction false} BackoffLinear(n: nat)
    ensures forall i :: 0 <= i < n ==> Backoff(n)[i] == (i + 1) * BackoffStep
    decreases n
  {
    if n > 0 {
      BackoffLinear(n - 1);
      assert Backoff(n)[..n - 1] == Backoff(n - 1);
    }
  }

  /** `deliver_with_retry`'s dictionary. With no attempt at all the source
      reads `method` before binding it and raises; that is `Unbound`. */
  datatype RetryResult =
    | Delivered(attempts: nat, via: string)
    | Exhausted(attempts: nat, via: string, error: Option<string>)
    | Unbound

  /** `deliver_with_retry`: up to `max_attempts` attempts (the configured
      retry count when none is given), `sentAt(k)` saying how the sends of
      attempt k go; stops at the first success, waits k * 5 seconds after
      a failed attempt k that is not the last. `waits` lists those waits. */
  method DeliverWithRetry(cfg: Config, codes: seq<string>, maxAttempts: Option<int>, sentAt: nat -> Sends)
    returns (r: RetryResult, waits: seq<nat>)
    ensures var max := maxAttempts.GetOr(cfg.deliveryRetryAttempts);
      && (r.Unbound? <==> max <= 0)
      && (r.Delivered? ==>
            && 1 <= r.attempts <= max
            && Attempt(cfg, codes, sentAt(r.attempts)).success
            && r.via == Attempt(cfg, codes, sentAt(r.attempts)).via
            && (forall k :: 1 <= k < r.attempts ==> !Attempt(cfg, codes, sentAt(k)).success)
            && waits == Backoff(r.attempts - 1))
      && (r.Exhausted? ==>
            && r.attempts == max
            && (forall k :: 1 <= k <= max ==> !Attempt(cfg, codes, sentAt(k)).success)
            && r.error == Attempt(cfg, codes, sentAt(max)).error
            && r.via == cfg.deliveryMethod
            && waits == Backoff(max - 1))
      && (max > 0 && r.Exhausted? <==> max > 0 && forall k :: 1 <= k <= max ==> !Attempt(cfg, codes, sentAt(k)).success)
  {
    var max := maxAttempts.GetOr(cfg.deliveryRetryAttempts);
    var attempts: nat := 0;
    var lastError: Option<string> := None;
    waits := [];
    while attempts < max
      invariant attempts <= max || attempts == 0
      invariant forall k :: 1 <= k <= attempts ==> !Attempt(cfg, codes, sentAt(k)).success
      invariant attempts > 0 ==> lastError == Attempt(cfg, codes, sentAt(attempts)).error
      invariant attempts < max ==> waits == Backoff(attempts)
      invariant 0 < attempts == max ==> waits == Backoff(attempts - 1)
      decreases max - attempts
    {
      attempts := attempts + 1;
      var result := Attempt(cfg, codes, sentAt(attempts));
      if result.success {
        return Delivered(attempts, result.via), waits;
      }
      lastError := result.error;
      if attempts < max {
        waits := waits + [attempts * BackoffStep];
      }
    }
    if attempts == 0 {
      return Unbound, waits;
    }
    r := Exhausted(attempts, cfg.deliveryMethod, lastError);
  }
}
