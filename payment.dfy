/** Paying for an order: the page waits for the session, checks the user and
    the order id from the address, then posts the chosen payment method. */
module Payment {
  import opened Api

  const InvalidOrder := "Invalid order ID. Please try checking out again."
  const MethodRequired := "Please select a payment method"
  const PaymentFailed := "Payment failed. Please try again."

  /** The route parameter is missing, empty, or the text 'undefined'. */
  function InvalidOrderId(orderId: Option<string>): (bad: bool)
    ensures bad <==> orderId == None || orderId == Some("") || orderId == Some("undefined")
  {
    !Truthy(orderId) || orderId.value == "undefined"
  }

  /** The route parameter as it appears in a request path. */
  function PathParam(orderId: Option<string>): string {
    if orderId.Some? then orderId.value else "undefined"
  }

  datatype Check = Wait | SignIn | BadOrder | Ready

  /** The page's effect: no decision while the session is loading, then the
      user, then the order id. */
  function CheckPage(authLoading: bool, user: Option<ProfileData>, orderId: Option<string>): (c: Check)
    ensures authLoading <==> c == Wait
    ensures !authLoading && user.None? <==> c == SignIn
    ensures c == BadOrder <==> !authLoading && user.Some? && InvalidOrderId(orderId)
    ensures c == Ready ==> user.Some? && !InvalidOrderId(orderId)
  {
    if authLoading then Wait
    else if user.None? then SignIn
    else if InvalidOrderId(orderId) then BadOrder
    else Ready
  }

  datatype View = Loading | ErrorView | PaymentForm

  /** What the page shows. */
  function ViewOf(authLoading: bool, pageLoading: bool, error: string): (v: View)
    ensures v == Loading <==> authLoading || pageLoading
    ensures v == ErrorView <==> !authLoading && !pageLoading && error != ""
  {
    if authLoading || pageLoading then Loading
    else if error != "" then ErrorView
    else PaymentForm
  }

  class PaymentPage {
    const orderId: Option<string>
    var paymentMethod: string
    var error: string
    var pageLoading: bool
    var redirect: Option<Route>
    var sent: seq<Request>

    constructor (orderId: Option<string>)
      ensures this.orderId == orderId
      ensures paymentMethod == "" && error == "" && pageLoading && redirect == None && sent == []
    {
      this.orderId := orderId;
      paymentMethod := "";
      error := "";
      pageLoading := true;
      redirect := None;
      sent := [];
    }

    /** The effect, run whenever the session's user or loading flag changes. */
    method Effect(authLoading: bool, user: Option<ProfileData>)
      modifies this
      ensures match CheckPage(authLoading, user, orderId)
        case Wait => error == old(error) && pageLoading == old(pageLoading) && redirect == old(redirect)
        case SignIn => error == old(error) && pageLoading == old(pageLoading) && redirect == Some(ToLogin)
        case BadOrder => error == InvalidOrder && !pageLoading && redirect == old(redirect)
        case Ready => error == old(error) && !pageLoading && redirect == old(redirect)
      ensures paymentMethod == old(paymentMethod) && sent == old(sent)
    {
      match CheckPage(authLoading, user, orderId) {
        case Wait =>
        case SignIn =>
          redirect := Some(ToLogin);
        case BadOrder =>
          error := InvalidOrder;
          pageLoading := false;
        case Ready =>
          pageLoading := false;
      }
    }

    method SelectMethod(m: string)
      modifies this
      ensures paymentMethod == m
      ensures error == old(error) && pageLoading == old(pageLoading) && redirect == old(redirect) && sent == old(sent)
    {
      paymentMethod := m;
    }

    /** `handlePayment`: a method must be chosen; the payment is always sent
        as completed; success goes to the order history. Without a user the
        handler fails before any request and shows the fallback message. */
    method HandlePayment(user: Option<ProfileData>, outcome: Response<()>)
      modifies this
      ensures paymentMethod == "" ==> error == MethodRequired && sent == old(sent) && redirect == old(redirect)
      ensures paymentMethod != "" && user.None? ==>
        error == PaymentFailed && sent == old(sent) && redirect == old(redirect)
      ensures paymentMethod != "" && user.Some? ==>
        sent == old(sent) + [PostPayment(user.value.userId, PathParam(orderId), PaymentBody(paymentMethod, "COMPLETED"))]
      ensures paymentMethod != "" && user.Some? && outcome.Ok? ==> redirect == Some(ToOrders) && error == old(error)
      ensures paymentMethod != "" && user.Some? && outcome.Err? ==>
        redirect == old(redirect) && error == Or(outcome.error.dataMessage, PaymentFailed)
      ensures paymentMethod == old(paymentMethod) && pageLoading == old(pageLoading)
    {
      if paymentMethod == "" {
        error := MethodRequired;
        return;
      }
      if user.None? {
        error := PaymentFailed;
        return;
      }
      sent := sent + [PostPayment(user.value.userId, PathParam(orderId), PaymentBody(paymentMethod, "COMPLETED"))];
      match outcome {
        case Ok(_) =>
          redirect := Some(ToOrders);
        case Err(err) =>
          error := Or(err.dataMessage, PaymentFailed);
      }
    }
  }
}
