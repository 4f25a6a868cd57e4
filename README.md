# Snack vending kiosk: card session, cart and dispensing model

This project models the client-side core of a snack vending kiosk built as a
React single-page application. It covers five parts:

- The application shell keeps an MQTT session with a card reader. It learns
  which card is inserted. When a card is removed, a debounce timer waits
  before the card is treated as gone.
- The product grid adds products to a shared cart and offers "buy now".
- The cart page changes quantities and removes lines. Its checkout runs
  three guards in a fixed order, then sends the order and handles the
  answer.
- The dispensing screen expands the confirmed cart into one unit per item and
  gives each unit a status. It moves a cursor one unit per three-second
  tick, then shows one status per line.
- The shared HTTP client runs a request interceptor that adds the stored
  admin id to every request.

Modules, one per source file:

- `Common` holds the value types: cards, products, cart lines and confirmed
  dispense lines.
- `App` (`src/App.jsx`):
  - The session is a value `Session`; `Next` applies one event to it and
    `Run` applies a sequence of events. Events are MQTT callbacks, messages,
    timer firings and teardown.
  - The class `CardSession` holds the same fields. Each of its handler
    methods is proved to take the session to `Next` of the old session.
  - The timer table is the set `armed` of live timer handles. A cleared
    timer leaves the set, and the firing of a handle outside the set does
    nothing.
  - Also here: the cart badge `TotalQuantity`.
- `Home` (`src/pages/Home.jsx`): the add-to-cart updater and buy now, as
  functions on the cart.
- `Cart` (`src/pages/Cart.jsx`):
  - The cart transformations `Increased`, `Decreased` and `Removed`.
  - The total `TotalPrice`.
  - The checkout decision `CheckoutDecision` and the button's `disabled`
    predicate.
  - The class `CartPage`, whose handlers are proved against those functions.
- `Dispensing` (`src/pages/Dispensing.jsx`):
  - The expansion: the loop `ExpandUnits`, proved equal to the function
    `Units`.
  - The status seeding `Seed` and the line display `Display`.
  - The screen state, advanced by `Mounted` and `Ticked`. The class
    `DispensingScreen` holds this state.
- `Api` (`src/api.js`): the interceptor `Intercept` works in place on a
  `RequestConfig` object and on its `FormData` body.

Status keys are the strings `${id}-${unitIndex}` in the source. Here they are
the pair `UnitKey(id, unitIndex)`, so two lines with the same id share
their keys, exactly as in the source. Money is in integer minor units. A
falsy id is `0` and a missing quantity is `0`.

## Model

| member | source | states |
|---|---|---|
| `App.Next` | src/App.jsx:46-130 | Each handler's effect. Connect sets the connected flag. A subscription success publishes `get_current` to `card/request`. A subscription failure shows "Failed to connect to card reader" and stops loading. An error clears the connected flag, shows "Connection to card reader failed" and stops loading. Close clears the connected flag, sets loading and leaves the timer armed. Reconnect sets loading. A card message shows the card, clears the error, stops loading and leaves no timer pending. A null message keeps the card, error and loading flag, and arms exactly one new timer. A malformed message sets "Invalid card data received" and leaves the card and timers alone. Every message is logged. A timer that is not armed does nothing. An armed timer clears the card and shows "Please insert the card for checkout". Teardown disarms the timer. The at-most-one-timer invariant is preserved. |
| `App.AtMostOneTimer` | src/App.jsx:44 | The debounce invariant implies at most one live removal timer. |
| `App.RunAppend` | src/App.jsx:38-131 | Handling events `a` then `b` equals handling `a + b`. |
| `App.RunKeepsValid` | src/App.jsx:94-106 | From any valid session, after any event sequence, at most one removal timer is pending: a new null message always clears the previous timer first. |
| `App.StartupAtMostOneTimer` | src/App.jsx:38-131 | From the session the shell starts with, after any event sequence, at most one removal timer is pending. |
| `App.RunLogsMessages` | src/App.jsx:89 | The message log is the old log followed by every message text in arrival order, parsed or not. |
| `App.QuietKeepsCard` | src/App.jsx:46-85 | With no timer pending, any sequence of non-message events leaves the card unchanged and no timer pending. |
| `App.NullThenCardKeepsCard` | src/App.jsx:94-112 | A null message followed by a card, and then any non-message events, leaves that card shown: the pending removal timer was cancelled. |
| `App.ConnectionEventsKeepTimer` | src/App.jsx:46-85 | Connect, subscribe results, error, close and reconnect leave the card, the armed timers and the timer slot unchanged. |
| `App.NullDebounce` | src/App.jsx:101-106 | After a null message, the card stays shown through any connection events, with exactly the new timer armed. When that timer fires, the card is cleared, the "insert card" error is shown and loading stops. |
| `App.TeardownCancelsTimer` | src/App.jsx:122-130 | After teardown no removal timer is pending, so later non-message events never clear the card. |
| `App.CardSession.constructor` | src/App.jsx:22-28 | The initial session: no card, no error, card loading, not connected, no timers. It satisfies the debounce invariant. |
| `App.CardSession.OnConnect` | src/App.jsx:46-48 | The connect handler takes the state to `Next(old, Connect)`. |
| `App.CardSession.OnSubscribe` | src/App.jsx:50-66 | The subscribe callback takes the state to `Next` of the failed or succeeded subscription. |
| `App.CardSession.OnError` | src/App.jsx:69-74 | The error handler takes the state to `Next(old, Error)`. |
| `App.CardSession.OnClose` | src/App.jsx:76-80 | The close handler takes the state to `Next(old, Close)`. |
| `App.CardSession.OnReconnect` | src/App.jsx:82-85 | The reconnect handler takes the state to `Next(old, Reconnect)`. |
| `App.CardSession.OnMessage` | src/App.jsx:87-118 | The message handler takes the state to `Next(old, Msg(m))`. |
| `App.CardSession.OnTimer` | src/App.jsx:102-106 | The timeout callback takes the state to `Next(old, TimerFired(t))`, a no-op for a cleared timer. |
| `App.CardSession.Cleanup` | src/App.jsx:122-130 | The effect cleanup takes the state to `Next(old, Teardown)`. |
| `App.TotalQuantityAppend` | src/App.jsx:29 | The badge total of two carts put together is the sum of their totals. |
| `App.TotalQuantityPointwise` | src/App.jsx:29 | Raising by one the quantity of the single line with a given id raises the badge by one, and by zero when no line has that id. |
| `App.AddToCartBadge` | src/pages/Home.jsx:25-41 | On a cart with unique ids, an add raises the badge by exactly one when it changes the cart and by zero when refused. |
| `Home.FindLine` | src/pages/Home.jsx:27 | `find` by id: the index returned is the first line with that id, and none is returned exactly when no line has it. |
| `Home.AddToCart` | src/pages/Home.jsx:25-41 | An absent product is appended as a line with quantity 1 and stock equal to the product's quantity. A present product whose found line is below the product's quantity raises every line with that id by one and leaves the others. Otherwise the cart is unchanged. |
| `Home.AddKeepsIdsUnique` | src/pages/Home.jsx:25-41 | An add never creates a second line for the same product id. |
| `Home.AddRaisesOneLine` | src/pages/Home.jsx:28-32 | On a cart with unique ids, a successful raise changes exactly the found line, by one item. |
| `Home.BuyNow` | src/pages/Home.jsx:43-53 | Buy now adds a quantity-1 line only for an absent product (the same cart an add gives) and never raises an existing line. The result is the cart handed to the cart page. |
| `Cart.Increased` | src/pages/Cart.jsx:37-46 | "+" raises line `index` by one exactly when it is below its stock and leaves every other line. At stock the cart is unchanged. Carts within stock stay within stock. |
| `Cart.Decreased` | src/pages/Cart.jsx:48-55 | "-" lowers line `index` by one exactly when it holds more than one item, so a line never drops below one. Every other line is unchanged, and carts within stock stay within stock. |
| `Cart.Removed` | src/pages/Cart.jsx:57-62 | `splice(index, 1)` removes exactly that line and keeps the order of the others. The multiset of lines loses just that line. Within-stock and unique ids are preserved. |
| `Cart.TotalPriceAppend` | src/pages/Cart.jsx:103 | The total of two carts put together is the sum of their totals. |
| `Cart.TotalPriceUpdate` | src/pages/Cart.jsx:103 | Replacing one line changes the total by the difference of the two subtotals. |
| `Cart.IncreaseRaisesTotal` | src/pages/Cart.jsx:37-46 | "+" raises the total by the line's price exactly when it raises the quantity. |
| `Cart.RemoveLowersTotal` | src/pages/Cart.jsx:57-62 | Removing a line lowers the total by that line's subtotal. |
| `Cart.ExceedsStock` | src/pages/Cart.jsx:70 | True exactly when some line's quantity is above its stock. |
| `Cart.OrderPayload` | src/pages/Cart.jsx:82-87 | The order's products are the cart, line for line, reduced to id and quantity. |
| `Cart.OrElse` | src/pages/Cart.jsx:95 | The JavaScript `or` default. The result is the text or the fallback. It is the fallback exactly when the text is missing, empty or equal to the fallback. It is empty only when both are. |
| `Cart.Outcome` | src/pages/Cart.jsx:90-100 | Accepted exactly on a successful answer, with the confirmed cart. A refused answer shows its `error` or "Order failed. Try again.". A thrown request shows the response's `error` or "Error while placing order. Please try again.". |
| `Cart.CheckoutDecision` | src/pages/Cart.jsx:64-100 | The guards in order, each as an if-and-only-if: empty cart, then a line over stock, then no card. Only when all three pass is the order sent, with the payload of the cart, and its outcome decided by the answer. |
| `Cart.EnabledMeansCredit` | src/pages/Cart.jsx:205 | An enabled checkout button means a card is present and its credit covers the total. |
| `Cart.EnabledCheckoutOrders` | src/pages/Cart.jsx:64-100 | Pressing an enabled button on a non-empty cart within stock sends the order. |
| `Cart.CheckoutIgnoresCredit` | src/pages/Cart.jsx:64-100 | The checkout handler's decision does not depend on the card's credit. |
| `Cart.AddCanExceedLineStock` | src/pages/Home.jsx:29 | A line created with stock 2 can be raised to 3 by the grid once the product's quantity grew to 5. Checkout then refuses that cart as over stock. |
| `Cart.CartPage.constructor` | src/pages/Cart.jsx:9-12 | The page starts from the given cart, card and error, with no alerts and no orders. |
| `Cart.CartPage.IncreaseQty` | src/pages/Cart.jsx:37-46 | The local cart becomes `Increased`. The application cart is updated only on a raise. The stock alert is shown only when refused. |
| `Cart.CartPage.DecreaseQty` | src/pages/Cart.jsx:48-55 | The local cart becomes `Decreased`. The application cart is updated only on a change. |
| `Cart.CartPage.RemoveItem` | src/pages/Cart.jsx:57-62 | Both carts become `Removed`. |
| `Cart.CartPage.Checkout` | src/pages/Cart.jsx:64-100 | Carries out `CheckoutDecision`: the alerts of the failed guard, the order request sent, the error text shown, and, on acceptance, both carts emptied and navigation to the dispensing screen with the confirmed cart. |
| `Dispensing.Units` | src/pages/Dispensing.jsx:122-131 | The expansion has as many units as the valid lines' quantities add up to. Every unit is of a valid line, with an index below its quantity and the key `(id, index)`. |
| `Dispensing.UnitsSnoc` | src/pages/Dispensing.jsx:123-131 | Expanding one more line appends that line's units. |
| `Dispensing.UnitOrigin` | src/pages/Dispensing.jsx:129 | Every unit is a copy of some line of the cart. |
| `Dispensing.ExpandUnits` | src/pages/Dispensing.jsx:122-131 | The `forEach`/`for` push loop computes exactly `Units`: invalid lines skipped, valid lines unit by unit in order. |
| `Dispensing.UnitPosition` | src/pages/Dispensing.jsx:122-131 | Unit `i` of valid line `k` sits at the valid quantities before `k` plus `i`, with key `(id, i)`. |
| `Dispensing.DistinctIdsDistinctKeys` | src/pages/Dispensing.jsx:129 | When valid lines carry distinct ids, the unit keys are pairwise distinct. |
| `Dispensing.Seed` | src/pages/Dispensing.jsx:141-146 | The seeded map has a status for exactly the units' keys. |
| `Dispensing.SeedStatus` | src/pages/Dispensing.jsx:141-146 | A unit whose key no later unit shares is seeded "Failed" if flagged failed and "Pending" otherwise. On a shared key the later unit wins. |
| `Dispensing.Display` | src/pages/Dispensing.jsx:198-203 | A line shows "Dispensing" exactly when some unit is dispensing. It shows "Failed" exactly when every unit failed, vacuously so for a line without units. It shows "Pending" exactly when none is dispensing and some unit is pending. A missing status counts as pending. |
| `Dispensing.Mounted` | src/pages/Dispensing.jsx:107-178 | (Its caller turns a missing navigation state into the empty cart.) A state without a cart makes the first render fail at `cart.length`, so the screen stays blank: not set up, not navigating, no timer, no status. An empty cart, or one without valid units, navigates home with no status and no timer. Otherwise the run invariant holds, with the cursor on the first unit. |
| `Dispensing.MountProgress` | src/pages/Dispensing.jsx:140-178 | Seeding followed by the first cursor effect establishes the run invariant. Every key has a status. Whatever the keys, a key is "Dispensing" exactly when a non-failed unit at or before the cursor carries it, and otherwise keeps its seeded status (the last unit with that key decides it). With distinct keys, each unit's status is "Failed" if flagged, "Dispensing" if at or before the cursor, else "Pending". The timer is set exactly while units remain, and navigation happens exactly at the end. |
| `Dispensing.Ticked` | src/pages/Dispensing.jsx:162-178 | A tick keeps the run invariant, including under shared keys: the key of a non-failed unit the cursor lands on becomes "Dispensing", and every key not yet reached keeps its seeded status. It moves the cursor by one while units remain and does nothing after the end. |
| `Dispensing.TickKeepsProgress` | src/pages/Dispensing.jsx:150-178 | The cursor effect after a tick re-establishes the run invariant. |
| `Dispensing.TicksMoveCursor` | src/pages/Dispensing.jsx:150-178 | After `k` ticks the cursor has moved `k` units, stopping at the end. The screen has navigated home exactly when the end was reached. |
| `Dispensing.FailedNeverDispensing` | src/pages/Dispensing.jsx:162-168 | A unit flagged failed keeps "Failed" throughout the run when keys are distinct. |
| `Dispensing.FinalDisplay` | src/pages/Dispensing.jsx:196-203 | Once every unit is processed, and with distinct ids, a valid line shows "Failed" if flagged failed and "Dispensing" otherwise. Nothing ever shows as completed. |
| `Dispensing.ReachedKeyDispensing` | src/pages/Dispensing.jsx:162-167 | Whatever the keys, once the cursor has reached a unit not flagged failed, that unit's key shows "Dispensing". |
| `Dispensing.SharedIdsShareStatus` | src/pages/Dispensing.jsx:129 | Two lines with the same id share keys. After one tick, the first line, flagged failed, shows "Dispensing" because of the second line's unit. |
| `Dispensing.DispensingScreen.constructor` | src/pages/Dispensing.jsx:104-178 | Mounting gives the state `Mounted(cart)`: a failed render for a missing cart, the set-up effect and the first cursor effect otherwise. |
| `Dispensing.DispensingScreen.RunEffect` | src/pages/Dispensing.jsx:150-178 | The cursor effect: the state becomes `Advanced` of the old state. |
| `Dispensing.DispensingScreen.OnTimer` | src/pages/Dispensing.jsx:170-175 | The dwell timer's callback: the state becomes `Ticked` of the old state. |
| `Dispensing.DispensingScreen.Unmount` | src/pages/Dispensing.jsx:177 | The effect cleanup clears the dwell timer and changes nothing else. |
| `Api.FormData.constructor` | src/api.js:14 | A FormData object holding the given entries. |
| `Api.FormData.Append` | src/api.js:23 | `append` adds one entry at the end. |
| `Api.RequestConfig.constructor` | src/api.js:7 | A request config with the given method, url, params and body. |
| `Api.LowerChar` | src/api.js:11 | Letters come out as lower-case letters, and nothing else becomes one. Only capitals change, each by the case offset. |
| `Api.LowerCase` | src/api.js:11 | Lower-casing keeps the length and lowers each character. |
| `Api.IsGetAnyCase` | src/api.js:11 | The method counts as a GET exactly when it spells "get" in any mix of cases. |
| `Api.WithAdmin` | src/api.js:12 | The spread params gain `adminId`, which overrides any earlier value, and every other key keeps its value. Missing params become just `adminId`. |
| `Api.BodyWithAdmin` | src/api.js:31 | The spread JSON body gains `adminId`, which overrides any earlier field, and every other field is kept. A missing body becomes just `adminId`. |
| `Api.AppendOnce` | src/api.js:22-24 | The old entries are kept in order, and `adminId` is present afterwards. One entry, the admin id, is added exactly when no entry carried the key. |
| `Api.AppendOnceIdempotent` | src/api.js:14-24 | Decorating a form twice adds nothing the second time, whatever id is stored then. |
| `Api.FormHasKey` | src/api.js:15-21 | The entry scan with its early `break` finds the key exactly when some entry carries it. |
| `Api.Intercept` | src/api.js:7-37 | With no stored id, or an empty one, the config passes untouched. Otherwise a GET gets `WithAdmin` params. A FormData body gets `AppendOnce` entries in place. Any other body becomes `BodyWithAdmin`. The same config object is returned, and its method and url never change. |

## Left out

- The MQTT library, the broker connection and its `keepalive`/reconnect
  settings are not modelled. Each callback is an event, and the order of
  events is a parameter.
- `JSON.parse` is not modelled: a message arrives with what it parses to.
- Timers are events. The removal delay from `REACT_APP_CARD_REMOVAL_TIMEOUT`
  (default 5000 ms) and the dispensing dwell of 3000 ms are not modelled as
  durations.
- Console logging is not modelled, nor the "FormData contents" log that
  names file values.
- The closure variable holding the card-removal timer keeps the handle
  after the timer fires and after teardown, as in the source. Only the set
  of live timers records that the timer is gone.
- The session's card data is not passed to the cart page: the page's `cardData` is an
  input. The source ignores the value the shell passes it. The page's
  5-second polling of `/api/card-data` and its error text are not modelled.
- The cart page's choice between the navigation state's cart and the
  application cart at mount (src/pages/Cart.jsx:9-16) is not modelled: the
  page starts from a given cart.
- Prices and credit are integers in minor units. The source uses
  JavaScript numbers, so floating-point rounding of totals is not modelled.
- Quantities are integers. Non-integer or string quantities are not
  modelled.
- Cart.CartPage.IncreaseQty: the source mutates the line object shared
  with the application cart. The model replaces the line with a new value,
  so the aliasing between old and new cart arrays is not captured.
- `Api.LowerCase` lower-cases ASCII letters only. JavaScript's
  `toLowerCase` is Unicode-aware, but no non-ASCII character lower-cases to
  "g", "e" or "t", so the GET test is exact.
- The HTTP method is assumed to be a string. The HTTP client supplies one
  before request interceptors run.
- A string or array request body, spread by the source into index-keyed
  fields, is not modelled: bodies are absent, field maps or FormData.
- Field and form values are strings. File values in a FormData body are
  represented by their text.
- The interceptor's error handler only re-throws and is not modelled.
- The dispensing screen's failed render on a missing cart
  (src/pages/Dispensing.jsx:183) is modelled as a screen that never sets up
  and never navigates. The error itself and any error boundary are not
  modelled.
- Cart.CartPage.Checkout: the source awaits the order request
  (src/pages/Cart.jsx:87), and the button stays enabled while it is in
  flight. A second press can run the guards again and send a second order
  before the first answer arrives. The model takes a press and its answer as
  one step, so interleaved presses are not captured.
- Cart.CartPage.DecreaseQty: like the "+" button, the source lowers the
  quantity on the line object shared with the application cart
  (src/pages/Cart.jsx:51). The model replaces the line with a new value.
- Home.AddToCart: the "Cannot add more than available stock!" alert
  (src/pages/Home.jsx:34) is not modelled. The refused add is modelled as
  an unchanged cart.
- A card message is parsed JSON that is not null. The model takes it to be
  a card object. Other JSON values (numbers, `false`, objects without the
  card's fields), which the source stores as the card data
  (src/App.jsx:109), are not modelled.
- Rendering, routing and React's scheduling of effects are not modelled.
  The dispensing screen's two effects are taken to run in order on mount and
  after each tick.
- The admin page, the login page and the presentational components are not
  part of this model.
- The commented-out first version of the dispensing screen
  (src/pages/Dispensing.jsx:1-85) is not part of this model.

The code does not do the following, and neither does the model:

- send any card identity with the order: the request carries only product
  ids and quantities;
- fetch any balance: the only credit the code sees is the `credit` field
  of the polled card data, which only the checkout button compares;
- mark any unit completed: a finished run shows "Dispensing" for every line
  not flagged failed;
- cancel a pending card-removal timer on a close event;
- compare credit with the total in the checkout handler: only the button's
  `disabled` predicate does.
