/** `POST /create_preference`: check that the request carries a non-empty
    cart, map each cart item to a provider line item, add the fixed redirect
    settings, and answer with the session id the provider assigns. */
module Preferences {
  import opened JsValues

  const Currency: string := "ARS"
  const AutoReturn: string := "approved"
  const SuccessUrl: string := "http://localhost:3001/carrito?status=success"
  const FailureUrl: string := "http://localhost:3001/carrito?status=failure"
  const PendingUrl: string := "http://localhost:3001/carrito?status=pending"

  /** `Number(operand)`. The numeric value (a float, possibly `NaN`) is not
      computed: the model keeps the operand that was coerced. */
  datatype Coerced = NumberOf(operand: JsValue)

  /** One entry of the `items` list sent to the provider. */
  datatype LineItem = LineItem(title: JsValue, quantity: Coerced, unitPrice: Coerced, currencyId: string)

  datatype BackUrls = BackUrls(success: string, failure: string, pending: string)

  /** The `body` passed to the provider's preference creation. */
  datatype PreferenceBody = PreferenceBody(items: seq<LineItem>, backUrls: BackUrls, autoReturn: string)

  /** Building the body either succeeds or ends the request with a status. */
  datatype Built = Built(body: PreferenceBody) | Refused(status: int)

  /** What the handler answers: `200 { id }`, an error status, or nothing
      when the catch block itself throws. */
  datatype CheckoutReply = SessionId(id: JsValue) | Error(status: int) | NoAnswer

  const StandardBackUrls: BackUrls := BackUrls(SuccessUrl, FailureUrl, PendingUrl)

  /** `Array.isArray(items) && items.length !== 0` */
  predicate IsCart(items: JsValue) {
    items.Arr? && |items.elements| != 0
  }

  /** `Number(operand)`, which throws for some objects and arrays. */
  function ToNumber(operand: JsValue): Completion<Coerced> {
    if NumberThrows(operand) then Throw else Normal(NumberOf(operand))
  }

  /** Whether the arrow function given to `items.map` returns for this item. */
  predicate Mappable(item: JsValue) {
    !IsNullish(item) && !NumberThrows(Get(item, "quantity")) && !NumberThrows(Get(item, "price"))
  }

  /** The arrow function given to `items.map`: `item.title` throws when the
      item is `null` or `undefined`, and either `Number()` conversion may
      throw. */
  function LineItemOf(item: JsValue): Completion<LineItem> {
    match Read(item, "title")
    case Throw => Throw
    case Normal(title) =>
      match ToNumber(Get(item, "quantity"))
      case Throw => Throw
      case Normal(quantity) =>
        match ToNumber(Get(item, "price"))
        case Throw => Throw
        case Normal(unitPrice) => Normal(LineItem(title, quantity, unitPrice, Currency))
  }

  /** `items.map(...)`, left to right; the first throwing item aborts the map. */
  function MapItems(items: seq<JsValue>): (r: Completion<seq<LineItem>>)
    ensures r.Normal? <==> forall i :: 0 <= i < |items| ==> Mappable(items[i])
    ensures r.Normal? ==> |r.value| == |items|
    decreases |items|
  {
    if items == [] then Normal([])
    else
      match LineItemOf(items[0])
      case Throw => Throw
      case Normal(line) =>
        match MapItems(items[1..])
        case Throw => Throw
        case Normal(rest) => Normal([line] + rest)
  }

  /** The i-th line item is built from the i-th cart item: its title is
      copied, quantity and price are the cart item's fields coerced to
      numbers, and the currency is fixed. */
  lemma {:induction false} MapItemsAt(items: seq<JsValue>, i: nat)
    requires i < |items|
    requires MapItems(items).Normal?
    ensures |MapItems(items).value| == |items|
    ensures MapItems(items).value[i] ==
              LineItem(Get(items[i], "title"), NumberOf(Get(items[i], "quantity")),
                       NumberOf(Get(items[i], "price")), Currency)
  {
    if i > 0 {
      MapItemsAt(items[1..], i - 1);
    }
  }

  /** Lines 35-54 of the handler, up to the provider call: destructure
      `items` from the request body (which throws when `req.body` is `null`
      or `undefined`), refuse an empty or non-array cart with 400, map the items (a
      `null` item or a throwing `Number()` conversion is answered with 500),
      and add the fixed settings. */
  function BuildPreference(request: JsValue): (r: Built)
    ensures r.Refused? ==> r.status == 400 || r.status == 500
    ensures r == Refused(400) <==> !IsNullish(request) && !IsCart(Get(request, "items"))
    ensures r.Built? <==>
              && !IsNullish(request)
              && IsCart(Get(request, "items"))
              && forall i :: 0 <= i < |Get(request, "items").elements| ==> Mappable(Get(request, "items").elements[i])
    ensures r.Built? ==> |r.body.items| == |Get(request, "items").elements|
    ensures r.Built? ==> r.body.backUrls == StandardBackUrls && r.body.autoReturn == AutoReturn
  {
    if IsNullish(request) then Refused(500)
    else
      var items := Get(request, "items");
      if !IsCart(items) then Refused(400)
      else
        match MapItems(items.elements)
        case Throw => Refused(500)
        case Normal(lines) => Built(PreferenceBody(lines, StandardBackUrls, AutoReturn))
  }

  /** For a built body, every line item follows the cart item at the same
      position and carries the fixed currency. */
  lemma BuiltLineItem(request: JsValue, i: nat)
    requires BuildPreference(request).Built?
    requires i < |Get(request, "items").elements|
    ensures var item := Get(request, "items").elements[i];
            var line := BuildPreference(request).body.items[i];
            && line.title == Get(item, "title")
            && line.quantity == NumberOf(Get(item, "quantity"))
            && line.unitPrice == NumberOf(Get(item, "price"))
            && line.currencyId == Currency
  {
    MapItemsAt(Get(request, "items").elements, i);
  }

  /** A quantity given as an object with its own `toString` key, such as
      `{"toString": 1}`, makes `Number(item.quantity)` throw, so a cart
      holding that item is answered with 500 and no body is built. */
  lemma OwnToStringQuantityIsRefused(title: JsValue, price: JsValue, quantity: map<string, JsValue>)
    requires "toString" in quantity
    ensures var item := Obj(map["title" := title, "quantity" := Obj(quantity), "price" := price]);
            BuildPreference(Obj(map["items" := Arr([item])])) == Refused(500)
  {
  }

  /** The whole endpoint. The provider is consulted only with a built body.
      A result without properties (reading `result.id` throws) is answered
      with 500, as is every other exception, except a rejection whose reason
      is `null` or `undefined`: the catch block reads `error.response`, which
      then throws in turn, and the handler sends no answer. */
  function CreatePreference(request: JsValue, created: Settled): (r: CheckoutReply)
    ensures r.SessionId? <==> BuildPreference(request).Built? && created.Fulfilled? && !IsNullish(created.value)
    ensures r.SessionId? ==> r.id == Get(created.value, "id")
    ensures r.Error? ==> r.status == 400 || r.status == 500
    ensures r == Error(400) <==> !IsNullish(request) && !IsCart(Get(request, "items"))
    ensures r.NoAnswer? <==> BuildPreference(request).Built? && created.Rejected? && IsNullish(created.reason)
  {
    match BuildPreference(request)
    case Refused(status) => Error(status)
    case Built(_) =>
      match created
      case Rejected(reason) => if IsNullish(reason) then NoAnswer else Error(500)
      case Fulfilled(result) =>
        match Read(result, "id")
        case Throw => Error(500)
        case Normal(id) => SessionId(id)
  }
}
