/** A product's page and its add-to-cart button, which is disabled while a
    request is in flight. */
module ProductDetails {
  import opened Api

  const LoadFailed := "Failed to load product"
  const AddFailed := "Could not add to cart"

  class ProductDetailsPage {
    const routeId: string
    var product: Option<Product>
    var error: string
    var adding: bool
    var redirect: Option<Route>
    var sent: seq<Request>

    constructor (routeId: string)
      ensures this.routeId == routeId
      ensures product == None && error == "" && !adding && redirect == None && sent == []
    {
      this.routeId := routeId;
      product := None;
      error := "";
      adding := false;
      redirect := None;
      sent := [];
    }

    /** The mount effect: load the product named in the address. */
    method Mount(outcome: Response<Product>)
      modifies this
      ensures sent == old(sent) + [GetProduct(routeId)]
      ensures outcome.Ok? ==> product == Some(outcome.data) && error == old(error)
      ensures outcome.Err? ==> product == old(product) && error == LoadFailed
      ensures adding == old(adding) && redirect == old(redirect)
    {
      sent := sent + [GetProduct(routeId)];
      match outcome {
        case Ok(p) => product := Some(p);
        case Err(_) => error := LoadFailed;
      }
    }

    /** The click on "Add to Cart", up to the request. A click while `adding`
        is ignored (the button is disabled); without a user the page goes to
        the login page; without a loaded product the handler fails before the
        request. `issued` says that the cart request is now in flight; its
        body asks for one unit of the product for the user. */
    method StartAddToCart(user: Option<ProfileData>) returns (issued: bool)
      modifies this
      ensures old(adding) ==> !issued && unchanged(this)
      ensures !old(adding) && user.None? ==>
        && !issued && redirect == Some(ToLogin) && !adding && sent == old(sent) && error == old(error)
      ensures !old(adding) && user.Some? && product.None? ==>
        && !issued && !adding && error == AddFailed && sent == old(sent) && redirect == old(redirect)
      ensures !old(adding) && user.Some? && product.Some? ==>
        && issued && adding && error == old(error) && redirect == old(redirect)
        && sent == old(sent) + [PostCart(NewCartItem(user.value.userId, product.value.productId, 1))]
      ensures !old(adding) ==> (issued <==> adding)
      ensures product == old(product)
    {
      issued := false;
      if adding {
        return;
      }
      if user.None? {
        redirect := Some(ToLogin);
        return;
      }
      adding := true;
      if product.None? {
        error := AddFailed;
        adding := false;
        return;
      }
      sent := sent + [PostCart(NewCartItem(user.value.userId, product.value.productId, 1))];
      issued := true;
    }

    /** The answer to the cart request: success goes to the cart, failure
        shows the server's message or the fallback; `adding` ends either way. */
    method FinishAddToCart(outcome: Response<()>)
      requires adding
      modifies this
      ensures !adding
      ensures outcome.Ok? ==> redirect == Some(ToCart) && error == old(error)
      ensures outcome.Err? ==> redirect == old(redirect) && error == Or(outcome.error.dataMessage, AddFailed)
      ensures product == old(product) && sent == old(sent)
    {
      match outcome {
        case Ok(_) => redirect := Some(ToCart);
        case Err(err) => error := Or(err.dataMessage, AddFailed);
      }
      adding := false;
    }
  }
}
