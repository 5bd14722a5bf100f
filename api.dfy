/** Values that the storefront pages exchange with the REST backend, the
    router and the browser: wire records, request log entries, failures and
    JavaScript's truthiness of optional strings. */
module Api {

  datatype Option<+T> = None | Some(value: T)

  /** JavaScript truthiness of an optional string: an absent value and the
      empty string are both falsy. */
  predicate Truthy(s: Option<string>) {
    s.Some? && s.value != ""
  }

  /** `a || fallback` where `a` is an optional string. */
  function Or(a: Option<string>, fallback: string): string {
    if Truthy(a) then a.value else fallback
  }

  /** `xs[0] || xs[1] || ... || null`: the first truthy value, if any. */
  function FirstTruthy(xs: seq<Option<string>>): (r: Option<string>)
    ensures r.Some? <==> exists i :: 0 <= i < |xs| && Truthy(xs[i])
    ensures r.Some? ==> Truthy(r)
    ensures forall i :: 0 <= i < |xs| && Truthy(xs[i]) && (forall j :: 0 <= j < i ==> !Truthy(xs[j])) ==> r == xs[i]
  {
    if xs == [] then None
    else if Truthy(xs[0]) then xs[0]
    else
      var rest := FirstTruthy(xs[1..]);
      assert forall i :: 1 <= i < |xs| ==> xs[i] == xs[1..][i - 1];
      rest
  }

  /** The role string that the admin pages require. */
  const Admin: string := "ADMIN"

  /** Claims read from a decoded bearer token. `exp` is in epoch seconds; a
      missing claim is None. */
  datatype Claims = Claims(
    email: Option<string>,
    emailAddress: Option<string>,
    username: Option<string>,
    sub: Option<string>,
    role: Option<string>,
    exp: Option<int>)

  /** The body of `GET /profile`; the session's `user` has the same shape. */
  datatype ProfileData = ProfileData(
    userId: int,
    fullName: Option<string>,
    email: Option<string>,
    role: Option<string>,
    address: Option<string>,
    phoneNumber: Option<string>)

  /** The three editable profile fields; also the body of `PUT /profile`. */
  datatype ProfileFields = ProfileFields(fullName: string, address: string, phoneNumber: string)

  datatype Category = Category(name: Option<string>)

  /** Prices are whole minor units (cents). */
  datatype Product = Product(
    productId: int,
    name: string,
    price: int,
    description: Option<string>,
    category: Option<Category>)

  /** The body of `POST /product` and `PUT /product/:id`. A `None` price is
      the NaN of an unparsable price, which is sent as null. */
  datatype ProductPayload = ProductPayload(name: string, price: Option<int>, description: string, categoryName: string)

  datatype CartItem = CartItem(cartId: int, productId: int, quantity: int, totalPrice: int)

  /** The body of `POST /cart`. */
  datatype NewCartItem = NewCartItem(userId: int, productId: int, quantity: int)

  datatype Order = Order(orderId: int, userId: int, totalAmount: int, quantity: int, orderStatus: string)

  /** The body of `POST /order/user/:userId`'s answer; either key may carry the new id. */
  datatype CreatedOrder = CreatedOrder(orderId: Option<int>, id: Option<int>)

  /** The body of `POST /payment/user/:userId/order/:orderId`. */
  datatype PaymentBody = PaymentBody(paymentMethod: string, paymentStatus: string)

  /** A failed request as the pages see it: the response status (None when
      there was no response), the server's `message` and `error` fields, and
      the JavaScript error's own message. */
  datatype ApiError = ApiError(
    status: Option<int>,
    dataMessage: Option<string>,
    dataError: Option<string>,
    message: string)

  /** The outcome of one request, supplied by the caller of a handler. */
  datatype Response<+T> = Ok(data: T) | Err(error: ApiError)

  /** Navigation targets. */
  datatype Route = ToLogin | ToHome | ToCart | ToOrders | ToManageProducts | ToPayment(orderId: int)

  /** One request issued to the backend; every page keeps a log of these. */
  datatype Request =
    | PostLogin(email: string, password: string)
    | GetProfile
    | PutProfile(fields: ProfileFields)
    | DeleteProfile
    | GetProducts
    | GetProduct(routeId: string)
    | GetCategories
    | PostProduct(payload: ProductPayload)
    | PutProduct(productId: int, payload: ProductPayload)
    | DeleteProduct(productId: int)
    | GetCart(userId: int)
    | PostCart(item: NewCartItem)
    | PutCart(cartId: int, quantity: Option<int>)  // None: a NaN quantity, sent as null
    | DeleteCartItem(cartId: int)
    | DeleteCart(userId: int)
    | PostOrder(userId: int)
    | GetAllOrders
    | PutOrderStatus(orderId: int, status: string)
    | PostPayment(userId: int, orderParam: string, body: PaymentBody)
}
