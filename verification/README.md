# Checkout backend: webhook deduplication and preference building

A model of the decision logic in the Express + MercadoPago checkout backend
(`index.js`). The backend has two pieces of logic that can be stated and checked
once the payment provider is abstracted away:

- **`POST /` notification handler**: a small state machine over two pieces of
  process state. `processedPayments` is a set of payment ids. `notificationsLog`
  is an append-only audit log. Each webhook is appended to the log. Then its
  `data.id` is extracted: a falsy id is rejected with 400, and an id already in
  the set is ignored with 200. A new id is added to the set *before* the payment
  is looked up with the provider. The provider's answer becomes 200 (approved or
  not) or 500 (bad status or an exception). In one case the handler itself
  sends no answer (see below).
- **`POST /create_preference` body builder**: it checks that `items` is a
  non-empty array. It maps each cart item to a provider line item with a fixed
  currency, adds three fixed redirect URLs and `auto_return`, and answers with
  the provider's session id.

Files:

- `js_values.dfy` (module `JsValues`): the JavaScript value semantics the
  decisions depend on. It covers parsed JSON values, `?.` property reads (which
  never throw) and plain reads (which throw on `null`/`undefined`), truthiness,
  and the SameValueZero key equality of `Set`.
- `preferences.dfy` (module `Preferences`): the preference builder as pure
  functions with lemmas.
- `notifications.dfy` (module `Notifications`): the handler. `Step` is the pure
  specification of one notification. `Run` folds `Step` over a sequence of
  deliveries. The lemmas relate several deliveries. The class
  `NotificationHandler` holds the two mutable fields, and its `Handle` method
  updates them in place and is proved equal to `Step`.

The provider calls (`payment.get`, `preference.create`) are inputs. A `Settled`
value says how the awaited promise settles: fulfilled with some value, or
rejected with some reason. The handler reads that value only if it gets as far as the call.

Details of the JavaScript semantics that the model keeps:

- `if (!paymentId)` rejects every falsy id, not only a missing one. So
  `data.id` equal to `0`, `""`, `false` or `null` is answered with 400, like an
  absent id.
- `Set.has` compares objects and arrays by reference. An id that is an object
  or array is freshly parsed from each request body, so it never matches an
  earlier one. Such an id is therefore marked and verified again on every
  delivery. Only primitive ids are deduplicated (`JsValues.SetHas`).
- Reading `response.status` on a `null` response, or `paymentDetails.status` on
  a missing `response.body`, throws. The catch-all then answers 500.
- In the builder, a `null` element in `items` makes `item.title` throw. That
  request is answered with 500, not 400. A `null` or `undefined` value of
  `req.body` makes the destructuring `const { items } = req.body` throw, which
  is also 500.
- `Number()` throws for a quantity or price that is an object with its own
  `toString` key, such as `{"toString": 1}`. A JSON value is never callable, so
  neither `valueOf` nor `toString` yields a primitive. The same happens for an
  array that contains such an object, because the array converts through
  `join`. Such a cart is answered with 500 (`JsValues.NumberThrows`).
- Both catch blocks read `error.response?.data`, and only `.data` is optional.
  When a provider call is rejected with a `null` or `undefined` reason, reading
  `error.response` throws inside the catch block. Then the handler itself sends
  no answer (`Unanswered` for the webhook, `NoAnswer` for the preference
  endpoint).

## Model

| member | source | states |
|---|---|---|
| `Preferences.MapItems` | index.js:42-47 | mapping the cart succeeds exactly when no item is `null`/`undefined` and no item's quantity or price makes `Number()` throw, and then yields one line item per cart item |
| `Preferences.MapItemsAt` | index.js:42-47 | the i-th line item copies the i-th cart item's title unchanged, takes `Number()` of its `quantity` and `price`, and has currency `"ARS"` (order is preserved) |
| `Preferences.BuildPreference` | index.js:35-54 | status 400 and no body exactly when the request body exists and `items` is missing, not an array, or empty; a body exactly when the cart is a non-empty array in which no item is nullish and no quantity or price makes `Number()` throw; otherwise 500; a built body has as many line items as the cart, the three fixed `back_urls` and `auto_return = "approved"` |
| `Preferences.BuiltLineItem` | index.js:41-47 | in a built body, every line item follows the cart item at the same position (title copied, quantity and price coerced) and has currency `"ARS"` |
| `Preferences.OwnToStringQuantityIsRefused` | index.js:41-47 | a cart whose item has a quantity object with its own `toString` key is answered with 500, and no body is built |
| `Preferences.CreatePreference` | index.js:33-68 | the session id is returned exactly when the body was built and the provider fulfilled with a non-nullish result, and it is that result's `id`; the handler sends no answer exactly when the body was built and the provider call was rejected with a nullish reason; every other answer is 400 or 500, and 400 exactly for an invalid cart |
| `Notifications.Verify` | index.js:96-121 | after the lookup the handler answers 200 exactly when the lookup fulfilled with `status === 200` and a body; the handler sends no answer exactly when the lookup was rejected with a nullish reason; otherwise it answers 500 (bad status or exception); "approved" is reported only when the body's status is `"approved"` |
| `Notifications.Step` | index.js:72-122 | each notification grows the log by exactly its payload; the processed set gains exactly the current id when it is truthy (even when verification then fails) and is otherwise unchanged; 400 exactly for a falsy id; duplicate exactly for an already processed primitive id; the provider is consulted only past both checks |
| `Notifications.RedeliveryIsIgnored` | index.js:87-94 | a second delivery of an already handled primitive id is answered 200 as a duplicate, whatever the first lookup returned, and leaves the processed set unchanged |
| `Notifications.ProviderOkAnswers200` | index.js:99-114 | when the provider answers 200 with a body, the handler answers 200 whether or not the payment is approved |
| `Notifications.Run` | index.js:72-122 | handling a sequence of deliveries yields one path per delivery |
| `Notifications.RunLogsEveryPayload` | index.js:74-77 | after any sequence of deliveries, valid or not, the log is the old log followed by every payload in arrival order; nothing is removed or reordered |
| `Notifications.RunMarksDeliveredIds` | index.js:80-94 | after any sequence of deliveries, the processed set is the old set plus exactly the truthy ids delivered, so it only grows |
| `Notifications.PathOfDelivery` | index.js:72-122 | each delivery in a sequence takes the path that one step takes from the state left by the deliveries before it |
| `Notifications.RepeatedIdIsDuplicate` | index.js:87-94 | within a run, a later delivery of a primitive id that was delivered earlier is a duplicate and performs no provider call |
| `Notifications.FirstDeliveryIsVerified` | index.js:87-97 | the first delivery of a truthy id that was not processed before reaches the provider lookup |
| `Notifications.NotificationHandler.constructor` | index.js:21-22 | the handler starts with an empty processed set and an empty log |
| `Notifications.NotificationHandler.Handle` | index.js:72-122 | updating the two fields in place gives the state and path that `Step` specifies; the log gains the payload; the set is monotone; when the provider is not consulted, the set is unchanged |

## Left out

- Express routing, `cors`, `express.json`, `dotenv`, `app.listen` and the `GET /` greeting: transport and startup plumbing with no decision logic.
- The MercadoPago SDK calls `payment.get` and `preference.create`: these are foreign network calls. Their settled results are parameters, and the preference body is not passed to a modelled provider.
- The numeric value of `Number()` for `quantity` and `price`: it has float and `NaN` semantics. `Preferences.Coerced` records the operand instead of computing the number. Whether the conversion throws is modelled.
- `console.log` / `console.error` output and the exact Spanish response texts: the model returns the HTTP status and which path was taken.
- `Notifications.Verify` and `Preferences.CreatePreference`: when a catch block throws, the model records only that the handler sends no answer, and keeps the state as it was at that point. What the framework does next depends on its version, which is not pinned here, and is not modelled. Under Express 4 the route's promise rejection is unhandled, and depending on Node's unhandled-rejection mode the process may exit and lose both pieces of state. Under Express 5 the rejection goes to `next(err)`, and the default error handler answers 500.
- What the framework hands over as `req.body` is not modelled; the contracts are stated over its value. Under Express 4, `express.json()` sets `req.body` to `{}` for a request without a body, and that request gets 400 rather than 500. Under Express 5 `req.body` stays `undefined`. A JSON `null` body is refused by `express.json()` in strict mode before either handler runs.
- Interleaving of concurrent requests at `await payment.get(...)`: one notification is handled at a time. So the race between the dedup check and the marking across requests is not modelled.
- The shape of the provider's payment response: `response.status` and `response.body.status` are read as the code reads them. Whether the SDK really returns that shape is outside this model.
- The processed set is a set of values. JavaScript keeps one entry per object reference, so repeated object ids are separate entries there. Membership answers are the same in both, because object ids never match.
