/** The administrators' order list: the admin gate, loading all orders with
    a bounded retry while the order service is unavailable, and changing an
    order's status. */
module ManageOrders {
  import opened Api
  import opened Guards

  const MaxRetries: nat := 3

  datatype OrdersError =
    | LoginRequired                                   // no persisted token
    | AdminOnly                                       // signed in, but not ADMIN
    | Unauthorized                                    // the backend answered 403
    | ServiceUnavailable                              // 503 after the last retry
    | LoadFailed(status: Option<int>, detail: string) // any other failure

  /** What a failed attempt to load the orders leads to. */
  datatype Attempt = Retry(nextCount: nat) | GiveUp(error: OrdersError, toLogin: bool)

  /** The decision after a failed `GET /order/all`, given the retries used so
      far: only a 503 is retried, and only while retries remain. */
  function OnLoadFailure(err: ApiError, retryCount: nat): (a: Attempt)
    ensures a.Retry? <==> err.status == Some(503) && retryCount < MaxRetries
    ensures a.Retry? ==> a.nextCount == retryCount + 1 <= MaxRetries
    ensures a.GiveUp? ==> (a.toLogin <==> err.status == Some(403))
    ensures a.GiveUp? && err.status == Some(403) ==> a.error == Unauthorized
    ensures a.GiveUp? && err.status == Some(503) ==> a.error == ServiceUnavailable && retryCount >= MaxRetries
    ensures err.status != Some(403) && err.status != Some(503) ==>
      a == GiveUp(LoadFailed(err.status, Or(err.dataError, err.message)), false)
  {
    if err.status == Some(403) then GiveUp(Unauthorized, true)
    else if err.status == Some(503) then
      if retryCount < MaxRetries then Retry(retryCount + 1) else GiveUp(ServiceUnavailable, false)
    else GiveUp(LoadFailed(err.status, Or(err.dataError, err.message)), false)
  }

  /** `orders.map(o => o.orderId === id ? {...o, orderStatus: s} : o)` */
  function WithStatus(orders: seq<Order>, orderId: int, status: string): (r: seq<Order>)
    ensures |r| == |orders|
    ensures forall i :: 0 <= i < |orders| && orders[i].orderId == orderId ==> r[i] == orders[i].(orderStatus := status)
    ensures forall i :: 0 <= i < |orders| && orders[i].orderId != orderId ==> r[i] == orders[i]
  {
    if orders == [] then []
    else
      var o := orders[0];
      [if o.orderId == orderId then o.(orderStatus := status) else o] + WithStatus(orders[1..], orderId, status)
  }

  /** Setting a status twice is setting it once; the later status wins. */
  lemma {:induction false} WithStatusOverwrites(orders: seq<Order>, orderId: int, s1: string, s2: string)
    ensures WithStatus(WithStatus(orders, orderId, s1), orderId, s2) == WithStatus(orders, orderId, s2)
  {
    if orders != [] {
      WithStatusOverwrites(orders[1..], orderId, s1, s2);
      assert WithStatus(orders, orderId, s1)[1..] == WithStatus(orders[1..], orderId, s1);
    }
  }

  class ManageOrdersPage {
    var orders: seq<Order>
    var loading: bool
    var error: Option<OrdersError>
    var retryCount: nat
    var redirect: Option<Route>
    var sent: seq<Request>

    ghost predicate Valid()
      reads this
    {
      retryCount <= MaxRetries
    }

    constructor ()
      ensures Valid()
      ensures orders == [] && loading && error == None && retryCount == 0
      ensures redirect == None && sent == []
    {
      orders := [];
      loading := true;
      error := None;
      retryCount := 0;
      redirect := None;
      sent := [];
    }

    /** The mount effect: the admin gate, then the first `GET /order/all`. */
    method Mount(stored: Option<string>, user: Option<ProfileData>)
      requires Valid()
      modifies this
      ensures Valid()
      ensures var g := AdminGate(stored, user);
        && (g == Pass ==> sent == old(sent) + [GetAllOrders] && redirect == old(redirect) && error == old(error))
        && (g == Deny(ToLogin) ==> sent == old(sent) && redirect == Some(ToLogin) && error == Some(LoginRequired))
        && (g == Deny(ToHome) ==> sent == old(sent) && redirect == Some(ToHome) && error == Some(AdminOnly))
      ensures orders == old(orders) && loading == old(loading) && retryCount == old(retryCount)
    {
      match AdminGate(stored, user) {
        case Pass =>
          sent := sent + [GetAllOrders];
        case Deny(to) =>
          error := if to == ToLogin then Some(LoginRequired) else Some(AdminOnly);
          redirect := Some(to);
      }
    }

    /** A retry scheduled after a 503 issues the request again. */
    method Refetch()
      modifies this
      ensures sent == old(sent) + [GetAllOrders]
      ensures orders == old(orders) && loading == old(loading) && error == old(error)
      ensures retryCount == old(retryCount) && redirect == old(redirect)
    {
      sent := sent + [GetAllOrders];
    }

    /** The answer to one `GET /order/all`; `retry` says that another attempt
        has been scheduled. */
    method OnOrdersResponse(outcome: Response<seq<Order>>) returns (retry: bool)
      requires Valid()
      modifies this
      ensures Valid()
      ensures sent == old(sent)
      ensures outcome.Ok? ==>
        && !retry && orders == outcome.data && !loading
        && error == old(error) && retryCount == old(retryCount) && redirect == old(redirect)
      ensures outcome.Err? ==> orders == old(orders)
      ensures outcome.Err? ==> match OnLoadFailure(outcome.error, old(retryCount))
        case Retry(n) =>
          retry && retryCount == n && loading == old(loading) && error == old(error) && redirect == old(redirect)
        case GiveUp(e, toLogin) =>
          && !retry && retryCount == old(retryCount) && error == Some(e) && !loading
          && redirect == (if toLogin then Some(ToLogin) else old(redirect))
    {
      retry := false;
      match outcome {
        case Ok(data) =>
          orders := data;
          loading := false;
        case Err(err) =>
          match OnLoadFailure(err, retryCount) {
            case Retry(n) =>
              retryCount := n;
              retry := true;
            case GiveUp(e, toLogin) =>
              if toLogin {
                redirect := Some(ToLogin);
              }
              error := Some(e);
              loading := false;
          }
      }
    }

    /** `handleStatusUpdate`: the list changes only after the backend agreed;
        a 403 also sends the administrator to the login page. */
    method HandleStatusUpdate(orderId: int, newStatus: string, outcome: Response<()>)
      modifies this
      ensures sent == old(sent) + [PutOrderStatus(orderId, newStatus)]
      ensures outcome.Ok? ==> orders == WithStatus(old(orders), orderId, newStatus) && redirect == old(redirect)
      ensures outcome.Err? ==> orders == old(orders)
      ensures outcome.Err? ==> redirect == (if outcome.error.status == Some(403) then Some(ToLogin) else old(redirect))
      ensures loading == old(loading) && error == old(error) && retryCount == old(retryCount)
    {
      sent := sent + [PutOrderStatus(orderId, newStatus)];
      match outcome {
        case Ok(_) =>
          orders := WithStatus(orders, orderId, newStatus);
        case Err(err) =>
          if err.status == Some(403) {
            redirect := Some(ToLogin);
          }
      }
    }
  }
}
