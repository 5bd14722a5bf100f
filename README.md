# EShoppingZone storefront: session store, page gates and page handlers

A Dafny model of the logic in the EShoppingZone React front end, which talks
to a REST backend. It has three parts.

- **The session store** (`AuthProvider`). It owns the bearer token, the hydrated
  `user`, the `loading` flag and the token persisted in the browser's local
  storage. It offers `login` and `logout` and hydrates the token whenever it
  changes. Hydration decodes the token, rejects an expired one, fetches the
  profile and merges the token's `email` and `role` claims into it. Any failure
  clears everything.
- **The page gates.** The three administration pages share one gate: no stored
  token sends the visitor to `/login`, and a role other than `ADMIN` sends them
  to `/`. The customer pages send a visitor with no user to `/login`. The
  payment page waits while the session is loading. The login page goes home
  only after a completed sign-in.
- **The page handlers.** These cover the bounded retry of the order list while
  the order service answers 503, and the list updates applied after the server
  agreed: cart quantity, removal, clearing and total; product deletion and
  edit; order status. They also cover the product form's validation, the
  choice of error messages, the profile page's e-mail display, and the
  double-submit flags.

Each page is a class whose fields mirror the page's React state. Two fields
are added to each page:

- `redirect`, the last navigation;
- `sent`, the log of requests issued, so that "no request was issued" is
  `sent == old(sent)`.

A handler takes the outcome of its request as a parameter: `Ok(data)`, or
`Err(ApiError(status, dataMessage, dataError, message))`. Here `dataMessage`
and `dataError` are the server's `message` and `error` fields, and `message`
is the JavaScript error's own message. The pure decisions are functions. The
list updates are recursive functions over sequences. The `map` updates
(`WithUpdatedItem`, `WithStatus`, `WithReplacedProduct`) have pointwise
contracts. The `filter` removals (`WithoutItem`, `WithoutProduct`) have
length and membership contracts, and lemmas show they keep the order of the
remaining elements. Lemmas also relate these functions: the total after a
removal or an update, and overwriting a status.

Modules: `Api` (wire records, requests, JavaScript truthiness), `Guards`,
`AuthContext`, and one module per page: `ManageOrders`, `Cart`,
`ManageProducts`, `AddProduct`, `Payment`, `Profile`, `Login`,
`ProductDetails`.

A front end of this kind would be expected to hold its pages until the session
has hydrated and to discard answers that arrive after a newer sign-in or
sign-out. The code does neither, and in places like these the model follows
the code:

- Only the payment page waits for the session to finish loading. Cart and
  Profile redirect on `!user` at once. The admin pages check `user?.role`
  during hydration as well. So while a valid token is still being hydrated,
  these pages redirect the visitor (`Guards.UserGate`, `Guards.AdminGate`).
- A profile response that arrives after a newer `login` or `logout` is not
  discarded. Nothing in the store checks a generation, so the model states no
  such property.
- A sign-in that returns the token the session already holds never finishes.
  `login` sets `loading`, but hydration runs only when the token changes, so
  `loading` stays true: the login page never goes home and its submit button
  stays disabled (`Login.SignInWithHeldToken`).
- A token whose claims lack `exp` never counts as expired, because
  `Date.now() >= undefined * 1000` is false (`AuthContext.IsExpired`).
- A merged user takes `email` and `role` from the claims even when the claims
  lack them, so a missing claim blanks the profile's own value.
- JavaScript truthiness is modelled as written. An empty string counts as
  absent for the token, the e-mail claims and server messages. A zero order
  id counts as absent too. `Api.Truthy` is the truth test of an optional
  string, and `Api.Or(a, b)` is the expression `a || b`.

Three more helpers model single source expressions and are covered by the
rows of the members that use them. `Guards.IsAdmin` is the
`user?.role === 'ADMIN'` test. `AuthContext.IsExpired` is
`Date.now() >= exp * 1000` at `src/context/AuthContext.js:22`.
`Payment.PathParam` is the `${orderId}` interpolation in the payment request
path, where a missing id becomes the text `undefined`.

## Model

| member | source | states |
|---|---|---|
| `Api.FirstTruthy` | src/components/Profile/Profile.js:34 | the result is present iff some entry is truthy, and then it is the first truthy entry |
| `Guards.AdminGate` | src/components/Admin/ManageOrders.js:23-34 | passes iff a non-empty token is stored and the user's role is `ADMIN`; no token gives `/login`, which takes precedence; otherwise a wrong or missing role gives `/` |
| `Guards.UserGate` | src/components/Cart/Cart.js:18-21 | passes iff there is a user; otherwise it redirects to `/login` |
| `Guards.CustomerIsTurnedAway` | src/components/Admin/ManageOrders.js:30-34 | a `USER`-role user never passes the admin gate, and with a token stored is sent to `/` |
| `AuthContext.Hydrate` | src/context/AuthContext.js:13-40 | no token iff the `NoToken` outcome; the profile is fetched iff the token is present, decodes and is unexpired; an expired token always ends `Expired` whatever the backend would say; it hydrates iff the token decodes, is unexpired and the fetch succeeds; the user is then the fetched profile with `email` and `role` replaced by the claims and nothing else changed |
| `AuthContext.ExpiryIsFinal` | src/context/AuthContext.js:22 | a token without `exp` is never expired, and an expired token stays expired at every later clock |
| `AuthContext.MergeClaims` | src/context/AuthContext.js:31 | the user's `email` and `role` are the claims' values, and every other field is the fetched profile's |
| `AuthContext.AuthProvider.constructor` | src/context/AuthContext.js:8-10 | the token is read from storage, there is no user, loading is true, and no request has been made |
| `AuthContext.AuthProvider.FetchUserProfile` | src/context/AuthContext.js:12-43 | ends with `loading` false on every path; `GET /profile` is logged exactly when the decision fetched; success sets the merged user and keeps the token; no token sets the user to null with no request; every other path clears the user, the token and the persisted token; it preserves `Valid()`: the stored token equals the token, and a settled user implies a token that was unexpired when checked |
| `AuthContext.AuthProvider.Login` | src/context/AuthContext.js:45-49 | persists and sets the new token, sets `loading`, keeps the user, issues no request |
| `AuthContext.AuthProvider.Logout` | src/context/AuthContext.js:51-57 | clears the persisted token, the token and the user, sets `loading` false, issues no request |
| `AuthContext.LogoutTwice` | src/context/AuthContext.js:51-57 | both logouts leave the store cleared, valid and without a request, and the state after the second equals the state after the first (returned as the ghost `once`) |
| `ManageOrders.OnLoadFailure` | src/components/Admin/ManageOrders.js:42-60 | it retries iff the status is 503 and fewer than 3 retries were used, and the new count is then at most 3; 403 gives up with the unauthorized error and goes to `/login`; 503 with no retries left gives the service-unavailable error; any other status gives a load error carrying the status and the server's `error` or the JS message, and no redirect |
| `ManageOrders.WithStatus` | src/components/Admin/ManageOrders.js:74-76 | same length; an order with the id gets the new status and keeps its other fields; every other order is unchanged |
| `ManageOrders.WithStatusOverwrites` | src/components/Admin/ManageOrders.js:74-76 | two status updates of one order equal the later one alone |
| `ManageOrders.ManageOrdersPage.constructor` | src/components/Admin/ManageOrders.js:13-16 | no orders, loading, no error, retry count 0 |
| `ManageOrders.ManageOrdersPage.Mount` | src/components/Admin/ManageOrders.js:22-38 | passing the admin gate issues `GET /order/all`; no token gives the login error and `/login`; a wrong role gives the admin-only error and `/`; a denied visit issues no request |
| `ManageOrders.ManageOrdersPage.Refetch` | src/components/Admin/ManageOrders.js:49-52 | a scheduled retry issues `GET /order/all` again and changes nothing else |
| `ManageOrders.ManageOrdersPage.OnOrdersResponse` | src/components/Admin/ManageOrders.js:36-60 | success stores the orders and ends loading; a retry only raises `retryCount` and leaves `error` and `loading` alone; giving up sets the error and ends loading, and on 403 goes to `/login`; `retryCount` never exceeds 3 |
| `ManageOrders.ManageOrdersPage.HandleStatusUpdate` | src/components/Admin/ManageOrders.js:67-88 | issues the status PUT; on success the orders become `WithStatus`; on failure the orders are unchanged, and a 403 goes to `/login` |
| `Cart.WithUpdatedItem` | src/components/Cart/Cart.js:39 | same length; each item with the cart id is replaced by the server's record; every other item is unchanged |
| `Cart.WithoutItem` | src/components/Cart/Cart.js:49 | an item remains iff it was there and has another cart id |
| `Cart.WithoutItemAppend` | src/components/Cart/Cart.js:49 | removal distributes over concatenation, so the kept items stay in order |
| `Cart.WithoutAbsentItem` | src/components/Cart/Cart.js:49 | removing an id that no item has leaves the list identical |
| `Cart.Total` | src/components/Cart/Cart.js:86 | an empty cart totals 0; non-negative prices give a non-negative total |
| `Cart.TotalAppend` | src/components/Cart/Cart.js:86 | the total of a concatenation is the sum of the totals |
| `Cart.TotalAfterRemoval` | src/components/Cart/Cart.js:86 | after a removal, the total drops by exactly the total of the removed items |
| `Cart.TotalAfterUpdate` | src/components/Cart/Cart.js:39 | updating the one item with a given cart id changes the total by the new price minus the old one |
| `Cart.ChosenOrderId` | src/components/Cart/Cart.js:70-73 | a truthy `orderId` wins, then a truthy `id`; no id is chosen iff both are missing or zero; a chosen id is never 0 |
| `Cart.CartPage.constructor` | src/components/Cart/Cart.js:12-14 | no items, loading, no error |
| `Cart.CartPage.Mount` | src/components/Cart/Cart.js:17-22 | no user: go to `/login`, and no cart request; otherwise `GET /cart/user/:userId` |
| `Cart.CartPage.OnCartLoaded` | src/components/Cart/Cart.js:22-31 | loading ends; success stores the items; failure sets "Failed to load cart" and keeps the items |
| `Cart.CartPage.UpdateQuantity` | src/components/Cart/Cart.js:35-43 | a quantity below 1 issues nothing and changes nothing; any other quantity, including the NaN of a cleared field (`None`, sent as null), issues the PUT; success applies `WithUpdatedItem`; failure keeps the items |
| `Cart.CartPage.RemoveItem` | src/components/Cart/Cart.js:46-53 | issues the DELETE; success applies `WithoutItem`; failure keeps the items |
| `Cart.CartPage.ClearCart` | src/components/Cart/Cart.js:56-63 | issues the DELETE; success leaves the cart empty; failure, or no user, keeps the items |
| `Cart.CartPage.PlaceOrder` | src/components/Cart/Cart.js:66-79 | posts the order; it goes to `/payment/<id>` only with a chosen id; a failure or a missing id does not navigate |
| `ManageProducts.FormFor` | src/components/Admin/ManageProducts.js:62-70 | name is copied and the price is the product's number; a missing description or category name becomes '' |
| `ManageProducts.EditSkipsPriceCheck` | src/components/Admin/ManageProducts.js:76-84 | the edit has no client-side price check: a price that parses to NaN or to a non-positive number is sent as it is, although `AddProduct.Validate` rejects the same fields; with every field filled, `Validate` rejects exactly those prices; whatever `Validate` accepts, the edit sends as the same body |
| `ManageProducts.UnchangedEditRoundTrip` | src/components/Admin/ManageProducts.js:79-84 | submitting an unedited form sends back the product's own name, price, description and category name |
| `ManageProducts.WithoutProduct` | src/components/Admin/ManageProducts.js:55 | a product remains iff it was there and has another id |
| `ManageProducts.WithoutProductIdempotent` | src/components/Admin/ManageProducts.js:55 | deleting the same id twice equals deleting it once |
| `ManageProducts.WithoutProductAppend` | src/components/Admin/ManageProducts.js:55 | deletion distributes over concatenation, so the kept products stay in order |
| `ManageProducts.WithReplacedProduct` | src/components/Admin/ManageProducts.js:86-88 | same length; a product with the id is replaced by the server's record; every other product is unchanged |
| `ManageProducts.ManageProductsPage.constructor` | src/components/Admin/ManageProducts.js:9-19 | empty lists, no product under edit, an empty form whose '' price parses to NaN, loading, no error |
| `ManageProducts.ManageProductsPage.Mount` | src/components/Admin/ManageProducts.js:21-37 | passing the admin gate issues `GET /product`; no token gives `/login` with its message; a wrong role gives `/` with its message; a denied visit issues no request |
| `ManageProducts.ManageProductsPage.OnLoaded` | src/components/Admin/ManageProducts.js:35-46 | loading always ends; the category request is issued only after the products arrived; either failure gives the one load-failure message; products already stored stay |
| `ManageProducts.ManageProductsPage.HandleDelete` | src/components/Admin/ManageProducts.js:51-60 | without confirmation: no request and no change; success applies `WithoutProduct`; failure keeps the list |
| `ManageProducts.ManageProductsPage.HandleEdit` | src/components/Admin/ManageProducts.js:62-70 | opens the editor on the product, with the form `FormFor(product)` |
| `ManageProducts.ManageProductsPage.HandleEditChange` | src/components/Admin/ManageProducts.js:72-74 | changes only the named text field of the form |
| `ManageProducts.ManageProductsPage.HandleEditPriceChange` | src/components/Admin/ManageProducts.js:72-74 | the price input: changes only the form's price, to the parsed new text, NaN included |
| `ManageProducts.ManageProductsPage.HandleEditSubmit` | src/components/Admin/ManageProducts.js:76-93 | PUTs `EditPayload` of the form, whatever its price parses to, to the edited product's id; success applies `WithReplacedProduct` and closes the editor; failure keeps the list and the editor open |
| `AddProduct.Validate` | src/components/Admin/AddProduct.js:52-67 | valid iff all four fields are non-empty and the parsed price is a positive number; any empty field gives the missing-fields error before the price is looked at; with every field filled, a NaN or non-positive price gives the positive-price error; a valid form's payload carries the numeric price and the category name |
| `AddProduct.SubmitError` | src/components/Admin/AddProduct.js:79-85 | 403 iff unauthorized; 400 iff invalid data, with the server's `error` or "Invalid product data"; 500 iff a server error, with the server's `error` or "Please try again later"; any other status keeps the status and the server's `error` or the JS message |
| `AddProduct.AddProductPage.constructor` | src/components/Admin/AddProduct.js:13-22 | an empty form, no error, no success |
| `AddProduct.AddProductPage.Mount` | src/components/Admin/AddProduct.js:25-38 | no token: `/login` with the login error; a wrong role: `/` with the admin-only error; otherwise nothing changes |
| `AddProduct.AddProductPage.HandleChange` | src/components/Admin/AddProduct.js:41-43 | changes only the named form field |
| `AddProduct.AddProductPage.HandleSubmit` | src/components/Admin/AddProduct.js:46-91 | clears both messages first; an invalid form sets its error and issues nothing; a valid one posts `Validate`'s payload; success shows the success message, resets all four fields to '' and goes to the product list; failure shows `SubmitError`, and a 403 also goes to `/login` |
| `Payment.InvalidOrderId` | src/components/Payment/Payment.js:25 | the order id is rejected iff it is missing, empty or the text `'undefined'` |
| `Payment.CheckPage` | src/components/Payment/Payment.js:14-32 | it waits iff auth is loading; once auth has loaded, no user means sign in; it is a bad order iff there is a user and the order id is missing, empty or `'undefined'` |
| `Payment.ViewOf` | src/components/Payment/Payment.js:51-55 | the loading view shows iff auth or the page is loading; the error view shows iff not loading and there is an error |
| `Payment.PaymentPage.constructor` | src/components/Payment/Payment.js:7-12 | no method chosen, no error, page loading |
| `Payment.PaymentPage.Effect` | src/components/Payment/Payment.js:14-32 | while auth loads it changes nothing; with no user it goes to `/login`; a bad order id sets the invalid-order error and ends page loading; otherwise page loading ends |
| `Payment.PaymentPage.SelectMethod` | src/components/Payment/Payment.js:96 | sets the payment method only |
| `Payment.PaymentPage.HandlePayment` | src/components/Payment/Payment.js:34-49 | no method: an error and no request; the request carries the chosen method and status `COMPLETED`; success goes to `/orders`; failure shows the server's message or the fallback and does not navigate |
| `Profile.TokenEmail` | src/components/Profile/Profile.js:34 | the first truthy of `email`, `email_address`, `username` and `sub`, else none |
| `Profile.DisplayEmail` | src/components/Profile/Profile.js:60-67 | the profile's e-mail wins, then the token's; "Email not available" iff neither is truthy |
| `Profile.FormFrom` | src/components/Profile/Profile.js:53-57 | each of the three fields is the profile's value, or '' when it is absent |
| `Profile.SavedFormRoundTrip` | src/components/Profile/Profile.js:82-93 | when the server stores the sent fields, reloading them gives the same form |
| `Profile.ProfilePage.constructor` | src/components/Profile/Profile.js:10-17 | no profile, an empty form, "Not available", no error |
| `Profile.ProfilePage.Mount` | src/components/Profile/Profile.js:19-74 | no user: go to `/login`, with no request and no change; otherwise `GET /profile`; success stores the profile and `FormFrom` of it, and shows `DisplayEmail` of the API and token e-mails; failure keeps the notice for a missing or undecodable token and shows the server's message or "Failed to load profile" |
| `Profile.ProfilePage.HandleChange` | src/components/Profile/Profile.js:76-78 | changes only the named form field |
| `Profile.ProfilePage.HandleUpdate` | src/components/Profile/Profile.js:80-98 | sends exactly the three form fields; success stores the answer and reloads the form from it; failure keeps both and shows the message |
| `Profile.ProfilePage.HandleDelete` | src/components/Profile/Profile.js:100-109 | without confirmation: no request; the session logs out only after a successful delete, and is untouched otherwise |
| `Login.LoginPage.constructor` | src/components/Auth/Login.js:13-17 | empty credentials, no error, not triggered |
| `Login.LoginPage.HandleChange` | src/components/Auth/Login.js:20-23 | changes only the named field |
| `Login.LoginPage.HandleSubmit` | src/components/Auth/Login.js:26-40 | while the session is loading the submit button is disabled, so nothing changes; otherwise it clears the error and posts the credentials; success hands the token to `login` and only then sets `loginTriggered`; failure shows the server's message or "Login failed", leaves `loginTriggered` and leaves the session untouched |
| `Login.ShouldGoHome` | src/components/Auth/Login.js:44 | no redirect without a completed sign-in, while the session loads, or without a user; a redirect when all three hold |
| `Login.LoginPage.Effect` | src/components/Auth/Login.js:43-47 | redirects to `/` iff the login was triggered, the session is not loading, and there is a user |
| `Login.SignInThenHydrate` | src/components/Auth/Login.js:31-47 | after a successful sign-in with a token other than the held one, the page has not moved while the token hydrates (the ghost `whileHydrating` is no redirect), and it goes home once hydration produced the merged user |
| `Login.SignInWithHeldToken` | src/context/AuthContext.js:43-49 | a sign-in returning the held token leaves `loading` true with the token and user unchanged, the page does not go home, and a second submission issues no request |
| `ProductDetails.ProductDetailsPage.constructor` | src/components/Product/ProductDetails.js:10-12 | no product, no error, not adding |
| `ProductDetails.ProductDetailsPage.Mount` | src/components/Product/ProductDetails.js:14-21 | requests the product; success stores it; failure shows "Failed to load product" |
| `ProductDetails.ProductDetailsPage.StartAddToCart` | src/components/Product/ProductDetails.js:23-33 | a click while `adding` changes nothing, because the button is disabled; no user: go to `/login`, with no POST and `adding` unchanged; otherwise the cart POST, asking for one unit of the product for the user's id, is in flight iff `adding` is now true |
| `ProductDetails.ProductDetailsPage.FinishAddToCart` | src/components/Product/ProductDetails.js:34-40 | `adding` ends after success and after failure; success goes to `/cart`; failure shows the server's message or "Could not add to cart" |

## Left out

- Markup, styling and rendering branches. The route table in `src/App.js` and
  `Home.js` are not part of this model. Four pages outside the session and
  checkout flow are not part of it either:
  - `Register.js` has no gate. It posts its form to `/register` and goes to
    `/login`, or shows the server's message or "Registration failed".
  - `ProductList.js` does not read the session. It fetches `/product` and
    renders the list or a load error.
  - `OrderHistory.js` and `OrderDetails.js` fetch and render behind the same
    `!user` gate as `Cart.js`.
- The HTTP client module (`services/api`) is not part of this model. This
  includes its base address and its bearer-header attachment. Each request is
  a `Request` log entry, and its outcome is a handler parameter.
- `jwtDecode`, `Date.now()`, `window.confirm` and local storage are inputs or
  fields. Decoding is an `Option<Claims>` parameter, the clock a `nat` of
  milliseconds, and confirmation a `bool`. `alert` and `console` output are
  omitted, so failures that only alert appear as "nothing changed".
- Effect scheduling is not modelled. The caller invokes `Mount`/`Effect` and
  the hydration method when the source's dependencies change. Interleaving of
  async callbacks and stale responses is not modelled either (the source does
  not guard against them).
- AuthContext.AuthProvider.Valid: the invariant that a settled user implies a
  token holds because each hydration is applied at once. In the source a
  `logout` during the profile request is followed by that request's
  `setUser` and `setLoading(false)`, which leaves a user with no token; the
  model does not capture this interleaving.
- `setTimeout` delays are dropped. The product form's delayed move to the
  product list is recorded at once. The order list's retry is returned as
  `retry` and issued by `Refetch`.
- ManageOrders.ManageOrdersPage.OnOrdersResponse: it decides on the page's
  current `retryCount`. The copy of `retryCount` captured by the timer's
  closure is not modelled, so neither is the exact number of requests in a run
  of 503 answers; the bound `retryCount <= 3` is proved.
- Floating point: prices and totals are whole cents. `Number(...)` on the
  product form's price is an `Option<int>` parameter, where `None` stands for
  NaN. `toFixed` is display only.
- The edit form's price field holds what `parseFloat` will make of its text,
  an `Option<int>` with `None` for NaN, not the text itself. The product's own
  number parses to itself, and the initial '' parses to NaN.
- Interpolated error texts are datatype variants that carry the status and
  detail (`ManageOrders.OrdersError`, `AddProduct.AddError`). Fixed texts are
  the source's strings. The product form's success text is a boolean.
- The login response is taken to carry a token string. A response without one
  is not modelled.
