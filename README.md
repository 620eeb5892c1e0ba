# FoodFlash order submission, modelled in Dafny

FoodFlash's web front end is a single React component, `App` (`frontend/src/App.js`). It lists
three restaurants, lets the user place an order at one of them, and shows the user's order history
with a coloured status badge. This project models the component's controller logic:

- its three pieces of state: `orders`, `loading` and `error`;
- the startup effect, which loads the history once;
- `loadOrders`, which replaces the history wholesale on success and keeps it on failure;
- `placeOrder`, which raises `loading`, clears `error`, posts a fixed payload and then ends in one
  of three ways (truthy `success`, falsy `success`, or a thrown request), with `loading` lowered
  in `finally`;
- the pure pieces: the payload literal, the error-message expression
  `error.response?.data?.error || error.message`, and the status-to-colour ternary chain.

Layout:

- `types.dfy` (`AppTypes`): line items, payload, orders, and the two backend requests.
- `order_request.dfy` (`OrderRequest`): the payload builder.
- `messages.dfy` (`Messages`): the JavaScript `||` fallback, the failure banner and the success alert.
- `status_colour.dfy` (`StatusColour`): the badge colour.
- `controller.dfy` (`Controller`): the state as a value. `Step` applies one handler event and
  `Run` replays a trace of events. The lemmas say what one submission does and what holds over
  whole traces.
- `app.dfy` (`AppComponent`): the component as a class `App`. Its fields are updated in place by
  one method per event. Each method's contract ties its new state to `Controller.Step`.
  `OrderAtBurgerBarn` is a client that runs an order at restaurant 2 against these contracts and checks the new order's badge colour.
  `Controller.Step`, `Controller.Run` and `OrderAtBurgerBarn` have no rows in the table below: they carry no contract of their
  own, and what `Step` does is stated by the `Controller` lemmas and the `App` method rows.

The two network calls are not performed. Issuing a call appends a `Request` to the `requests`
field, so "exactly one refresh" can be stated. The call's outcome then arrives as a separate
handler call (`CreateResponded`, `CreateThrew`, `RefreshSucceeded`, `RefreshFailed`). The
`success` argument is the truthiness of the response's `success` field. The server's `error`
field is an `Option<string>`: `None` stands for no response, no body, or no field. Prices are
integer cents, so 15.99 becomes 1599. The `alert` shown after a success is recorded in the
`alerts` field.

Three behaviours of the code are easy to misread; the model follows the code:

- A response whose `success` is falsy sets no error and issues no refresh (App.js:47-50). It is
  not handled as a failure.
- After a successful create, `loadOrders()` is called without `await` (App.js:49). So `loading`
  is lowered as soon as the refresh has been *issued*, and the refresh's result is a later,
  separate event.
- The POST body carries only `restaurantId`, not the restaurant's name. The name is used only in
  the alert.

## Model

| member | source | states |
|---|---|---|
| `OrderRequest.BuildPayload` | frontend/src/App.js:34-42 | The payload is for user 1, names the given restaurant, and carries exactly the one item {id 1, "Sample Item", quantity 1, 1599 cents}. Its total equals the items' price × quantity, and its payment method is `pm_test_card`. |
| `OrderRequest.PayloadDependsOnlyOnRestaurant` | frontend/src/App.js:34-42 | Two payloads differ only in `restaurantId`, and they are equal exactly when the ids are equal. |
| `Messages.OrElse` | frontend/src/App.js:52 | JavaScript `||` on the server's error field: a present, non-empty field wins; an absent or empty one falls back to the transport message. |
| `Messages.FailureMessage` | frontend/src/App.js:52-53 | The banner is "Failed to place order: " followed by the `||` choice of reason. |
| `Messages.FailureMessageInjective` | frontend/src/App.js:52-53 | Two banners are equal if and only if their reasons are equal. |
| `Messages.SuccessAlert` | frontend/src/App.js:48 | The alert reads "Order placed successfully at ", then the restaurant name, then "!". |
| `StatusColour.StatusColour` | frontend/src/App.js:138-140 | Defined for every string. Green if and only if the status is 'delivered', orange if and only if it is 'preparing', blue if and only if it is neither. |
| `Controller.Initial` | frontend/src/App.js:12-18 | After mounting: no orders, not loading, no error, no alerts. Exactly one history fetch and no create request have been issued. |
| `Controller.StartSubmitEffect` | frontend/src/App.js:31-45 | Starting a submission sets `loading`, clears `error` and sends exactly one create request with the built payload. `orders` is unchanged. |
| `Controller.PlaceOrderOutcome` | frontend/src/App.js:29-58 | For one call `placeOrder(restaurantId, restaurantName)` followed by a response carrying that name, or by a throw: every outcome ends with `loading` false and `orders` unchanged. Only a throw sets `error`, to the composed message. A truthy `success` alerts with that call's name and issues exactly one refresh. A falsy one does neither and leaves `error` empty. |
| `Controller.RefreshReplaces` | frontend/src/App.js:22-23 | A successful refresh replaces `orders` with the list verbatim and changes nothing else. Repeating it with the same list is idempotent. |
| `Controller.RefreshFailedKeeps` | frontend/src/App.js:24-26 | A failed refresh changes no state. |
| `Controller.LastRefreshWins` | frontend/src/App.js:20-27 | After any trace, `orders` is the list of the latest successful refresh, or the starting list if there was none. |
| `Controller.ErrorTracksLatestAttempt` | frontend/src/App.js:32 | After any trace, `error` is decided by the latest start or throw. A later start clears it. Responses and refreshes never touch it. |
| `Controller.LoadingTracksLatestAttempt` | frontend/src/App.js:31 | After any trace, `loading` is true exactly when the latest submission event is a start with no outcome after it. |
| `Controller.StepAccounting` | frontend/src/App.js:45-49 | One event adds a create request exactly when it is a start, and a fetch exactly when it is a truthy response. |
| `Controller.RequestAccounting` | frontend/src/App.js:29-58 | Over any trace: the create requests sent equal the submissions started, and the fetches sent equal the truthy responses. |
| `Controller.RefreshesFromMount` | frontend/src/App.js:16-18 | From mounting on, the history was fetched exactly 1 + (number of truthy responses) times. |
| `Controller.StepPreservesConsistent` | frontend/src/App.js:29-58 | Each handler keeps three facts: every request sent is a fetch for user 1 or a well-formed payload, every banner starts with "Failed to place order: ", and `loading` implies no banner. |
| `Controller.RunPreservesConsistent` | frontend/src/App.js:29-58 | Any trace from a consistent state ends in a consistent state. |
| `Controller.ReachableIsConsistent` | frontend/src/App.js:12-58 | Every state reachable from mounting is consistent. |
| `Controller.ScenarioCardDeclined` | frontend/src/App.js:51-53 | A refusal whose body has `error` "card declined" shows "Failed to place order: card declined". The order list is untouched. |
| `Controller.ScenarioUnreachable` | frontend/src/App.js:51-53 | A throw with no response body shows "Failed to place order: " followed by the transport message. |
| `Controller.ScenarioStartupFetchFails` | frontend/src/App.js:16-27 | If the startup fetch fails, the history stays empty and no banner appears. |
| `AppComponent.App.constructor` | frontend/src/App.js:12-18 | Mounting gives the initial state. The startup effect has issued one fetch. |
| `AppComponent.App.StartSubmit` | frontend/src/App.js:31-45 | `loading` true, `error` cleared, one create request appended. Orders and alerts are unchanged. The invariant is kept. |
| `AppComponent.App.CreateResponded` | frontend/src/App.js:47-50 | `loading` false. `error` and `orders` are unchanged. A fetch and an alert are appended exactly when `success` is truthy. |
| `AppComponent.App.CreateThrew` | frontend/src/App.js:51-57 | `loading` false, and `error` is the composed message. Orders, requests and alerts are unchanged. |
| `AppComponent.App.RefreshSucceeded` | frontend/src/App.js:22-23 | `orders` becomes the list. `loading`, `error`, requests and alerts are unchanged. |
| `AppComponent.App.RefreshFailed` | frontend/src/App.js:24-26 | Modifies nothing: every field is unchanged, which is the failed-refresh step. |

## Left out

- The axios GET and POST calls (App.js:22, 45) are not executed. They become entries in `requests`, and their outcomes become handler calls.
- React hooks, re-rendering, and all JSX and inline styling (App.js:60-161) are not modelled. This includes the `disabled={loading}` button guard.
- `console.log` and `console.error` output is not modelled. `alert` is modelled only as the text appended to `alerts`.
- Floating-point prices are not modelled: 15.99 is 1599 integer cents, and order totals are integer cents as well.
- Date formatting with `toLocaleDateString` (App.js:147) is not modelled. `createdAt` is kept as an opaque string.
- The static restaurant catalogue (App.js:6-10) is not modelled. The restaurant id and name arrive as arguments.
- Overlapping submissions and the race with the un-awaited refresh are not modelled. Only UI code guards against them. `Controller.Step` has no precondition, so any interleaving can still be replayed with `Run`; the `App` methods require only the invariant `Valid()` that the constructor establishes.
- The restaurant name is an argument of the `CreateResponded` event, not of `StartSubmit`: the model does not pair a response with the start it answers, so a trace may alert with a name no start used. `Controller.PlaceOrderOutcome` states the pairing for one call.
- JavaScript values are typed in the model. A truthy non-string server `error` field, and a `response.data` that is not a list, are not modelled. A response without `data` makes `response.data.success` throw, which is the `CreateThrew` path with no server error.
