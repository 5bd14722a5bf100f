/** The customer's cart: loading it, changing a quantity, removing an item,
    clearing the cart, checking out, and the cart total. */
module Cart {
  import opened Api
  import opened Guards

  /** `items.map(it => it.cartId === cartId ? updated : it)` */
  function WithUpdatedItem(items: seq<CartItem>, cartId: int, updated: CartItem): (r: seq<CartItem>)
    ensures |r| == |items|
    ensures forall i :: 0 <= i < |items| ==> r[i] == if items[i].cartId == cartId then updated else items[i]
  {
    if items == [] then []
    else [if items[0].cartId == cartId then updated else items[0]] + WithUpdatedItem(items[1..], cartId, updated)
  }

  /** `items.filter(it => it.cartId !== cartId)` */
  function WithoutItem(items: seq<CartItem>, cartId: int): (r: seq<CartItem>)
    ensures |r| <= |items|
    ensures forall it :: it in r <==> it in items && it.cartId != cartId
  {
    if items == [] then []
    else if items[0].cartId == cartId then WithoutItem(items[1..], cartId)
    else [items[0]] + WithoutItem(items[1..], cartId)
  }

  /** The items that carry `cartId`: what a removal takes away. */
  function ItemsWithId(items: seq<CartItem>, cartId: int): seq<CartItem> {
    if items == [] then []
    else if items[0].cartId == cartId then [items[0]] + ItemsWithId(items[1..], cartId)
    else ItemsWithId(items[1..], cartId)
  }

  /** `items.reduce((sum, it) => sum + it.totalPrice, 0)`, in cents. */
  function Total(items: seq<CartItem>): (r: int)
    ensures items == [] ==> r == 0
    ensures (forall i :: 0 <= i < |items| ==> items[i].totalPrice >= 0) ==> r >= 0
  {
    if items == [] then 0 else items[0].totalPrice + Total(items[1..])
  }

  /** Removal keeps the remaining items in their order: it works piecewise on
      a split cart. */
  lemma {:induction false} WithoutItemAppend(a: seq<CartItem>, b: seq<CartItem>, cartId: int)
    ensures WithoutItem(a + b, cartId) == WithoutItem(a, cartId) + WithoutItem(b, cartId)
  {
    if a == [] {
      assert a + b == b;
    } else {
      assert (a + b)[0] == a[0] && (a + b)[1..] == a[1..] + b;
      WithoutItemAppend(a[1..], b, cartId);
    }
  }

  /** Removing an id no item carries changes nothing. */
  lemma {:induction false} WithoutAbsentItem(items: seq<CartItem>, cartId: int)
    requires forall i :: 0 <= i < |items| ==> items[i].cartId != cartId
    ensures WithoutItem(items, cartId) == items
  {
    if items != [] {
      WithoutAbsentItem(items[1..], cartId);
    }
  }

  /** The total is additive over a split cart. */
  lemma {:induction false} TotalAppend(a: seq<CartItem>, b: seq<CartItem>)
    ensures Total(a + b) == Total(a) + Total(b)
  {
    if a == [] {
      assert a + b == b;
    } else {
      assert (a + b)[0] == a[0] && (a + b)[1..] == a[1..] + b;
      TotalAppend(a[1..], b);
    }
  }

  /** After a removal the total drops by exactly the removed items' prices. */
  lemma {:induction false} TotalAfterRemoval(items: seq<CartItem>, cartId: int)
    ensures Total(WithoutItem(items, cartId)) == Total(items) - Total(ItemsWithId(items, cartId))
  {
    if items != [] {
      TotalAfterRemoval(items[1..], cartId);
    }
  }

  /** After a quantity update of the one item with `cartId`, the total moves
      by the difference between the server's record and the old one. */
  lemma {:induction false} TotalAfterUpdate(items: seq<CartItem>, k: nat, updated: CartItem)
    requires k < |items|
    requires forall i :: 0 <= i < |items| && i != k ==> items[i].cartId != items[k].cartId
    ensures Total(WithUpdatedItem(items, items[k].cartId, updated)) == Total(items) - items[k].totalPrice + updated.totalPrice
  {
    var id := items[k].cartId;
    if k == 0 {
      assert WithUpdatedItem(items, id, updated) == [updated] + WithUpdatedItem(items[1..], id, updated);
      assert WithUpdatedItem(items[1..], id, updated) == items[1..];
    } else {
      assert WithUpdatedItem(items, id, updated) == [items[0]] + WithUpdatedItem(items[1..], id, updated);
      TotalAfterUpdate(items[1..], k - 1, updated);
    }
  }

  /** `res.data.orderId || res.data.id`: a zero or missing id is falsy. */
  function ChosenOrderId(created: CreatedOrder): (r: Option<int>)
    ensures r.Some? ==> r.value != 0
    ensures r.Some? ==> r == created.orderId || r == created.id
    ensures r.None? <==> (created.orderId.None? || created.orderId == Some(0)) && (created.id.None? || created.id == Some(0))
    ensures created.orderId.Some? && created.orderId.value != 0 ==> r == created.orderId
  {
    if created.orderId.Some? && created.orderId.value != 0 then created.orderId
    else if created.id.Some? && created.id.value != 0 then created.id
    else None
  }

  class CartPage {
    var items: seq<CartItem>
    var loading: bool
    var error: string
    var redirect: Option<Route>
    var sent: seq<Request>

    constructor ()
      ensures items == [] && loading && error == "" && redirect == None && sent == []
    {
      items := [];
      loading := true;
      error := "";
      redirect := None;
      sent := [];
    }

    /** The mount effect: without a user, go to the login page and fetch
        nothing; otherwise fetch the user's cart. */
    method Mount(user: Option<ProfileData>)
      modifies this
      ensures UserGate(user) == Pass ==> sent == old(sent) + [GetCart(user.value.userId)] && redirect == old(redirect)
      ensures UserGate(user) != Pass ==> sent == old(sent) && redirect == Some(ToLogin)
      ensures items == old(items) && loading == old(loading) && error == old(error)
    {
      if user.None? {
        redirect := Some(ToLogin);
      } else {
        sent := sent + [GetCart(user.value.userId)];
      }
    }

    method OnCartLoaded(outcome: Response<seq<CartItem>>)
      modifies this
      ensures !loading
      ensures outcome.Ok? ==> items == outcome.data && error == old(error)
      ensures outcome.Err? ==> items == old(items) && error == "Failed to load cart"
      ensures sent == old(sent) && redirect == old(redirect)
    {
      match outcome {
        case Ok(data) =>
          items := data;
        case Err(_) =>
          error := "Failed to load cart";
      }
      loading := false;
    }

    /** `updateQuantity`, called with `parseInt` of the field. A quantity below
        1 is ignored without a request. None is the NaN of a cleared field: it
        passes the `quantity < 1` check and is sent. */
    method UpdateQuantity(cartId: int, quantity: Option<int>, outcome: Response<CartItem>)
      modifies this
      ensures quantity.Some? && quantity.value < 1 ==> sent == old(sent) && items == old(items)
      ensures quantity.None? || quantity.value >= 1 ==> sent == old(sent) + [PutCart(cartId, quantity)]
      ensures (quantity.None? || quantity.value >= 1) && outcome.Ok? ==>
        items == WithUpdatedItem(old(items), cartId, outcome.data)
      ensures outcome.Err? ==> items == old(items)
      ensures loading == old(loading) && error == old(error) && redirect == old(redirect)
    {
      if quantity.Some? && quantity.value < 1 {
        return;
      }
      sent := sent + [PutCart(cartId, quantity)];
      if outcome.Ok? {
        items := WithUpdatedItem(items, cartId, outcome.data);
      }
    }

    method RemoveItem(cartId: int, outcome: Response<()>)
      modifies this
      ensures sent == old(sent) + [DeleteCartItem(cartId)]
      ensures outcome.Ok? ==> items == WithoutItem(old(items), cartId)
      ensures outcome.Err? ==> items == old(items)
      ensures loading == old(loading) && error == old(error) && redirect == old(redirect)
    {
      sent := sent + [DeleteCartItem(cartId)];
      if outcome.Ok? {
        items := WithoutItem(items, cartId);
      }
    }

    /** `clearCart`; without a user the handler fails before any request. */
    method ClearCart(user: Option<ProfileData>, outcome: Response<()>)
      modifies this
      ensures user.None? ==> sent == old(sent) && items == old(items)
      ensures user.Some? ==> sent == old(sent) + [DeleteCart(user.value.userId)]
      ensures user.Some? && outcome.Ok? ==> items == []
      ensures outcome.Err? ==> items == old(items)
      ensures loading == old(loading) && error == old(error) && redirect == old(redirect)
    {
      if user.None? {
        return;
      }
      sent := sent + [DeleteCart(user.value.userId)];
      if outcome.Ok? {
        items := [];
      }
    }

    /** `placeOrder`: go to the payment page of the new order, or stay when
        the request fails or the answer carries no usable id. */
    method PlaceOrder(user: Option<ProfileData>, outcome: Response<CreatedOrder>)
      modifies this
      ensures user.None? ==> sent == old(sent) && redirect == old(redirect)
      ensures user.Some? ==> sent == old(sent) + [PostOrder(user.value.userId)]
      ensures user.Some? && outcome.Ok? && ChosenOrderId(outcome.data).Some? ==>
        redirect == Some(ToPayment(ChosenOrderId(outcome.data).value))
      ensures outcome.Err? || (outcome.Ok? && ChosenOrderId(outcome.data).None?) ==> redirect == old(redirect)
      ensures items == old(items) && loading == old(loading) && error == old(error)
    {
      if user.None? {
        return;
      }
      sent := sent + [PostOrder(user.value.userId)];
      if outcome.Ok? {
        var id := ChosenOrderId(outcome.data);
        if id.Some? {
          redirect := Some(ToPayment(id.value));
        }
      }
    }
  }
}
