/** `POST /`: the payment-notification webhook. Each notification is logged,
    its payment id is extracted and deduplicated against the ids seen
    before, the id is marked as processed, and only then is the payment
    looked up with the provider. */
module Notifications {
  import opened JsValues

  /** Which way a notification leaves the handler. */
  datatype Path =
    | MissingId           // no truthy `data.id`
    | Duplicate           // the id was processed before
    | VerificationFailed  // the provider answered with a status other than 200
    | Approved            // the provider's payment status is "approved"
    | NotApproved         // any other payment status
    | Crashed             // an exception, caught by the handler's catch-all
    | Unanswered          // the catch-all itself threw: the handler sends no answer
  {
    /** Whether an HTTP response is sent back at all. */
    predicate Answered() {
      !Unanswered?
    }

    /** The HTTP status sent back to the provider. */
    function Status(): int
      requires Answered()
    {
      match this
      case MissingId => 400
      case Duplicate => 200
      case VerificationFailed => 500
      case Approved => 200
      case NotApproved => 200
      case Crashed => 500
    }

    /** Whether the handler got as far as the provider lookup. */
    predicate ConsultedProvider() {
      !MissingId? && !Duplicate?
    }
  }

  /** The two pieces of process state: the processed payment ids and the
      audit log of every notification received. */
  datatype Ledger = Ledger(processed: set<JsValue>, log: seq<JsValue>)

  datatype Handled = Handled(ledger: Ledger, path: Path)

  /** One delivery of the webhook: the payload and how the provider lookup
      for it would settle. */
  datatype Delivery = Delivery(payload: JsValue, lookup: Settled)

  /** The outcome of a sequence of deliveries: the final state and the path
      each delivery took. */
  datatype Trace = Trace(ledger: Ledger, paths: seq<Path>)

  /** `notification?.data?.id` */
  function PaymentIdOf(notification: JsValue): JsValue {
    Get(Get(notification, "data"), "id")
  }

  /** Whether the handler stops at the dedup check for this id. */
  predicate IsDuplicate(processed: set<JsValue>, id: JsValue) {
    SetHas(processed, id)
  }

  /** Lines 97-114: await the provider lookup and branch on its answer.
      A rejected lookup, a `null` response (reading `response.status`) and a
      response without a body (reading `paymentDetails.status`) all throw,
      and the catch-all answers 500. The catch-all reads `error.response`
      first, so when the lookup is rejected with a `null` or `undefined`
      reason the catch-all throws in turn and the handler sends no answer. */
  function Verify(lookup: Settled): (p: Path)
    ensures p.ConsultedProvider()
    ensures p.Unanswered? <==> lookup.Rejected? && IsNullish(lookup.reason)
    ensures p.Answered() && p.Status() == 200 <==>
              && lookup.Fulfilled?
              && !IsNullish(lookup.value)
              && Get(lookup.value, "status") == Num(200.0)
              && !IsNullish(Get(lookup.value, "body"))
    ensures p == Approved ==> Get(Get(lookup.value, "body"), "status") == Str("approved")
  {
    match lookup
    case Rejected(reason) => if IsNullish(reason) then Unanswered else Crashed
    case Fulfilled(response) =>
      match Read(response, "status")
      case Throw => Crashed
      case Normal(status) =>
        if status != Num(200.0) then VerificationFailed
        else
          match Read(Get(response, "body"), "status")
          case Throw => Crashed
          case Normal(paymentStatus) =>
            if paymentStatus == Str("approved") then Approved else NotApproved
  }

  /** One notification, as the handler processes it. */
  function Step(ledger: Ledger, notification: JsValue, lookup: Settled): (r: Handled)
    ensures r.ledger.log == ledger.log + [notification]
    ensures var id := PaymentIdOf(notification);
            r.ledger.processed == if Truthy(id) then ledger.processed + {id} else ledger.processed
    ensures r.path == MissingId <==> !Truthy(PaymentIdOf(notification))
    ensures r.path == Duplicate <==> Truthy(PaymentIdOf(notification)) && IsDuplicate(ledger.processed, PaymentIdOf(notification))
    ensures r.path.ConsultedProvider() ==> r.path == Verify(lookup)
  {
    var logged := ledger.(log := ledger.log + [notification]);
    var id := PaymentIdOf(notification);
    if !Truthy(id) then Handled(logged, MissingId)
    else if IsDuplicate(ledger.processed, id) then Handled(logged, Duplicate)
    else Handled(logged.(processed := logged.processed + {id}), Verify(lookup))
  }

  /** A second delivery of an id that was handled before is ignored with
      200, whatever the provider answered the first time, and leaves the set
      of processed ids as it was. */
  lemma RedeliveryIsIgnored(ledger: Ledger, first: JsValue, lookup: Settled, second: JsValue, lookup': Settled)
    requires Truthy(PaymentIdOf(first)) && IsPrimitive(PaymentIdOf(first))
    requires PaymentIdOf(second) == PaymentIdOf(first)
    ensures var again := Step(Step(ledger, first, lookup).ledger, second, lookup');
            && again.path == Duplicate
            && again.path.Status() == 200
            && again.ledger.processed == Step(ledger, first, lookup).ledger.processed
  {
  }

  /** When the lookup settles with status 200 the handler answers 200,
      whether or not the payment is approved. */
  lemma ProviderOkAnswers200(ledger: Ledger, notification: JsValue, response: JsValue)
    requires Truthy(PaymentIdOf(notification)) && !IsDuplicate(ledger.processed, PaymentIdOf(notification))
    requires Get(response, "status") == Num(200.0) && !IsNullish(Get(response, "body"))
    ensures var r := Step(ledger, notification, Fulfilled(response));
            && r.path.Status() == 200
            && (r.path == Approved <==> Get(Get(response, "body"), "status") == Str("approved"))
  {
  }

  /** Handle deliveries one after another, oldest first. */
  function Run(ledger: Ledger, deliveries: seq<Delivery>): (t: Trace)
    ensures |t.paths| == |deliveries|
    decreases |deliveries|
  {
    if deliveries == [] then Trace(ledger, [])
    else
      var last := deliveries[|deliveries| - 1];
      var before := Run(ledger, deliveries[..|deliveries| - 1]);
      var h := Step(before.ledger, last.payload, last.lookup);
      Trace(h.ledger, before.paths + [h.path])
  }

  /** The payloads of the deliveries, in order. */
  function Payloads(deliveries: seq<Delivery>): seq<JsValue> {
    seq(|deliveries|, i requires 0 <= i < |deliveries| => deliveries[i].payload)
  }

  /** The truthy payment ids among the deliveries. */
  ghost function DeliveredIds(deliveries: seq<Delivery>): set<JsValue> {
    set d | d in deliveries && Truthy(PaymentIdOf(d.payload)) :: PaymentIdOf(d.payload)
  }

  /** The audit log keeps every payload, valid or not, in arrival order,
      after what it held before. */
  lemma {:induction false} RunLogsEveryPayload(ledger: Ledger, deliveries: seq<Delivery>)
    ensures Run(ledger, deliveries).ledger.log == ledger.log + Payloads(deliveries)
    decreases |deliveries|
  {
    if deliveries != [] {
      var n := |deliveries| - 1;
      RunLogsEveryPayload(ledger, deliveries[..n]);
      assert Payloads(deliveries) == Payloads(deliveries[..n]) + [deliveries[n].payload];
    }
  }

  /** The processed ids only grow, and they grow by exactly the truthy ids
      delivered: an id is marked even when its verification failed. */
  lemma {:induction false} RunMarksDeliveredIds(ledger: Ledger, deliveries: seq<Delivery>)
    ensures Run(ledger, deliveries).ledger.processed == ledger.processed + DeliveredIds(deliveries)
    decreases |deliveries|
  {
    if deliveries != [] {
      var n := |deliveries| - 1;
      RunMarksDeliveredIds(ledger, deliveries[..n]);
      assert deliveries == deliveries[..n] + [deliveries[n]];
      var d := deliveries[n];
      assert DeliveredIds(deliveries) ==
             DeliveredIds(deliveries[..n]) + (if Truthy(PaymentIdOf(d.payload)) then {PaymentIdOf(d.payload)} else {});
    }
  }

  /** The path of the j-th delivery is the path one step takes from the
      state the earlier deliveries left behind. */
  lemma {:induction false} PathOfDelivery(ledger: Ledger, deliveries: seq<Delivery>, j: nat)
    requires j < |deliveries|
    ensures Run(ledger, deliveries).paths[j] ==
              Step(Run(ledger, deliveries[..j]).ledger, deliveries[j].payload, deliveries[j].lookup).path
    decreases |deliveries|
  {
    var n := |deliveries| - 1;
    if j < n {
      PathOfDelivery(ledger, deliveries[..n], j);
      assert deliveries[..n][..j] == deliveries[..j];
    }
  }

  /** Within one run, a primitive payment id that was delivered before is
      never verified again: the later delivery is a duplicate. */
  lemma {:induction false} RepeatedIdIsDuplicate(ledger: Ledger, deliveries: seq<Delivery>, i: nat, j: nat)
    requires i < j < |deliveries|
    requires Truthy(PaymentIdOf(deliveries[i].payload)) && IsPrimitive(PaymentIdOf(deliveries[i].payload))
    requires PaymentIdOf(deliveries[j].payload) == PaymentIdOf(deliveries[i].payload)
    ensures Run(ledger, deliveries).paths[j] == Duplicate
  {
    PathOfDelivery(ledger, deliveries, j);
    RunMarksDeliveredIds(ledger, deliveries[..j]);
    assert deliveries[..j][i] == deliveries[i];
  }

  /** The first delivery of an id that was not processed before reaches the
      provider lookup. */
  lemma {:induction false} FirstDeliveryIsVerified(ledger: Ledger, deliveries: seq<Delivery>, j: nat)
    requires j < |deliveries|
    requires Truthy(PaymentIdOf(deliveries[j].payload))
    requires PaymentIdOf(deliveries[j].payload) !in ledger.processed
    requires forall k :: 0 <= k < j ==> PaymentIdOf(deliveries[k].payload) != PaymentIdOf(deliveries[j].payload)
    ensures Run(ledger, deliveries).paths[j].ConsultedProvider()
  {
    PathOfDelivery(ledger, deliveries, j);
    RunMarksDeliveredIds(ledger, deliveries[..j]);
    var id := PaymentIdOf(deliveries[j].payload);
    forall d | d in deliveries[..j]
      ensures PaymentIdOf(d.payload) != id
    {
      var k :| 0 <= k < j && deliveries[..j][k] == d;
    }
  }

  /** The handler as it runs in the process: the module-level
      `processedPayments` set and `notificationsLog` array, updated in place
      by each notification. */
  class NotificationHandler {
    var processedPayments: set<JsValue>
    var notificationsLog: seq<JsValue>

    function State(): Ledger
      reads this
    {
      Ledger(processedPayments, notificationsLog)
    }

    constructor ()
      ensures processedPayments == {} && notificationsLog == []
    {
      processedPayments := {};
      notificationsLog := [];
    }

    /** Handle one notification; `lookup` is how `payment.get` settles for
        it, and is used only when the handler gets that far. */
    method Handle(notification: JsValue, lookup: Settled) returns (path: Path)
      modifies this
      ensures Handled(State(), path) == Step(old(State()), notification, lookup)
      ensures notificationsLog == old(notificationsLog) + [notification]
      ensures old(processedPayments) <= processedPayments
      ensures !path.ConsultedProvider() ==> processedPayments == old(processedPayments)
    {
      notificationsLog := notificationsLog + [notification];
      var paymentId := PaymentIdOf(notification);
      if !Truthy(paymentId) {
        return MissingId;
      }
      if IsDuplicate(processedPayments, paymentId) {
        return Duplicate;
      }
      processedPayments := processedPayments + {paymentId};
      path := Verify(lookup);
    }
  }
}
