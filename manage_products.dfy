/** The administrators' product list: the admin gate, loading products and
    categories, deleting a product, and editing one in place. */
module ManageProducts {
  import opened Api
  import opened Guards
  import AddProduct

  /** The edit form. `price` is what `parseFloat` makes of the price field:
      the product's own number after `handleEdit`, `None` (NaN) for the
      initial '' or for a cleared or non-numeric entry. */
  datatype EditForm = EditForm(name: string, price: Option<int>, description: string, category: string)

  const EmptyForm: EditForm := EditForm("", None, "", "")

  const LoginRequired := "Please log in as an admin to manage products."
  const AdminOnly := "Only admins can manage products."
  const LoadFailed := "Failed to load products or categories"

  datatype EditField = NameField | DescriptionField | CategoryField

  /** `handleEdit`'s form: a missing description or category name becomes ''. */
  function FormFor(p: Product): (f: EditForm)
    ensures f.name == p.name && f.price == Some(p.price)
    ensures f.description == (if p.description.Some? then p.description.value else "")
    ensures f.category == (if p.category.Some? && p.category.value.name.Some? then p.category.value.name.value else "")
  {
    EditForm(
      p.name,
      Some(p.price),
      Or(p.description, ""),
      if p.category.Some? then Or(p.category.value.name, "") else "")
  }

  /** The body `handleEditSubmit` sends: the form's fields, the parsed price
      and the category by name. */
  function EditPayload(f: EditForm): ProductPayload {
    ProductPayload(f.name, f.price, f.description, f.category)
  }

  /** Editing a product and submitting the form unchanged sends the product's
      own fields back, with '' for a missing description or category name. */
  lemma UnchangedEditRoundTrip(p: Product)
    ensures EditPayload(FormFor(p)).name == p.name && EditPayload(FormFor(p)).price == Some(p.price)
    ensures p.description.Some? ==> EditPayload(FormFor(p)).description == p.description.value
    ensures p.category.Some? && p.category.value.name.Some? ==>
      EditPayload(FormFor(p)).categoryName == p.category.value.name.value
  {
  }

  /** `products.filter(p => p.productId !== productId)` */
  function WithoutProduct(products: seq<Product>, productId: int): (r: seq<Product>)
    ensures |r| <= |products|
    ensures forall p :: p in r <==> p in products && p.productId != productId
  {
    if products == [] then []
    else if products[0].productId == productId then WithoutProduct(products[1..], productId)
    else [products[0]] + WithoutProduct(products[1..], productId)
  }

  /** `products.map(p => p.productId === productId ? updated : p)` */
  function WithReplacedProduct(products: seq<Product>, productId: int, updated: Product): (r: seq<Product>)
    ensures |r| == |products|
    ensures forall i :: 0 <= i < |products| ==> r[i] == if products[i].productId == productId then updated else products[i]
  {
    if products == [] then []
    else
      var first := if products[0].productId == productId then updated else products[0];
      [first] + WithReplacedProduct(products[1..], productId, updated)
  }

  /** The edit has no client-side check: an edit form whose price field
      parses to NaN or to a non-positive number is sent as it is, although the
      new-product form would refuse the same fields (`priceText` is the field's
      text). Whatever the new-product form accepts, the edit sends unchanged. */
  lemma EditSkipsPriceCheck(f: EditForm, priceText: string)
    ensures var v := AddProduct.Validate(AddProduct.ProductForm(f.name, priceText, f.description, f.category), f.price);
      && ((f.price.None? || f.price.value <= 0) ==> v.Rejected? && EditPayload(f).price == f.price)
      && (v.Accepted? ==> v.payload == EditPayload(f))
      && (f.name != "" && priceText != "" && f.description != "" && f.category != "" ==>
            (v.Rejected? <==> f.price.None? || f.price.value <= 0))
  {
  }

  /** Deleting the same product twice is deleting it once. */
  lemma {:induction false} WithoutProductIdempotent(products: seq<Product>, productId: int)
    ensures WithoutProduct(WithoutProduct(products, productId), productId) == WithoutProduct(products, productId)
  {
    if products != [] {
      WithoutProductIdempotent(products[1..], productId);
    }
  }

  /** After a deletion no remaining product carries the id, and every other
      product keeps its position relative to the rest. */
  lemma {:induction false} WithoutProductAppend(a: seq<Product>, b: seq<Product>, productId: int)
    ensures WithoutProduct(a + b, productId) == WithoutProduct(a, productId) + WithoutProduct(b, productId)
  {
    if a == [] {
      assert a + b == b;
    } else {
      assert (a + b)[0] == a[0] && (a + b)[1..] == a[1..] + b;
      WithoutProductAppend(a[1..], b, productId);
    }
  }

  class ManageProductsPage {
    var products: seq<Product>
    var categories: seq<Category>
    var editProduct: Option<Product>
    var editForm: EditForm
    var loading: bool
    var error: string
    var redirect: Option<Route>
    var sent: seq<Request>

    constructor ()
      ensures products == [] && categories == [] && editProduct == None && editForm == EmptyForm
      ensures loading && error == "" && redirect == None && sent == []
    {
      products := [];
      categories := [];
      editProduct := None;
      editForm := EmptyForm;
      loading := true;
      error := "";
      redirect := None;
      sent := [];
    }

    /** The mount effect: the admin gate, then `GET /product`. */
    method Mount(stored: Option<string>, user: Option<ProfileData>)
      modifies this
      ensures var g := AdminGate(stored, user);
        && (g == Pass ==> sent == old(sent) + [GetProducts] && redirect == old(redirect) && error == old(error))
        && (g == Deny(ToLogin) ==> sent == old(sent) && redirect == Some(ToLogin) && error == LoginRequired)
        && (g == Deny(ToHome) ==> sent == old(sent) && redirect == Some(ToHome) && error == AdminOnly)
      ensures products == old(products) && categories == old(categories) && loading == old(loading)
      ensures editProduct == old(editProduct) && editForm == old(editForm)
    {
      match AdminGate(stored, user) {
        case Pass =>
          sent := sent + [GetProducts];
        case Deny(to) =>
          error := if to == ToLogin then LoginRequired else AdminOnly;
          redirect := Some(to);
      }
    }

    /** The answers to `GET /product` and then `GET /product/category`; the
        second is asked only when the first succeeded. Either failure gives
        one message; the products already stored stay. */
    method OnLoaded(productsOutcome: Response<seq<Product>>, categoriesOutcome: Response<seq<Category>>)
      modifies this
      ensures !loading
      ensures productsOutcome.Err? ==>
        && products == old(products) && categories == old(categories) && sent == old(sent)
        && error == LoadFailed
      ensures productsOutcome.Ok? ==> products == productsOutcome.data && sent == old(sent) + [GetCategories]
      ensures productsOutcome.Ok? && categoriesOutcome.Ok? ==> categories == categoriesOutcome.data && error == old(error)
      ensures productsOutcome.Ok? && categoriesOutcome.Err? ==>
        categories == old(categories) && error == LoadFailed
      ensures editProduct == old(editProduct) && editForm == old(editForm) && redirect == old(redirect)
    {
      match productsOutcome {
        case Err(_) =>
          error := LoadFailed;
        case Ok(ps) =>
          products := ps;
          sent := sent + [GetCategories];
          match categoriesOutcome {
            case Ok(cs) =>
              categories := cs;
            case Err(_) =>
              error := LoadFailed;
          }
      }
      loading := false;
    }

    /** `handleDelete`: nothing happens unless the administrator confirms. */
    method HandleDelete(productId: int, confirmed: bool, outcome: Response<()>)
      modifies this
      ensures !confirmed ==> sent == old(sent) && products == old(products)
      ensures confirmed ==> sent == old(sent) + [DeleteProduct(productId)]
      ensures confirmed && outcome.Ok? ==> products == WithoutProduct(old(products), productId)
      ensures outcome.Err? ==> products == old(products)
      ensures categories == old(categories) && editProduct == old(editProduct) && editForm == old(editForm)
      ensures loading == old(loading) && error == old(error) && redirect == old(redirect)
    {
      if !confirmed {
        return;
      }
      sent := sent + [DeleteProduct(productId)];
      if outcome.Ok? {
        products := WithoutProduct(products, productId);
      }
    }

    /** `handleEdit`: open the editor on a product. */
    method HandleEdit(product: Product)
      modifies this
      ensures editProduct == Some(product) && editForm == FormFor(product)
      ensures products == old(products) && categories == old(categories) && sent == old(sent)
      ensures loading == old(loading) && error == old(error) && redirect == old(redirect)
    {
      editProduct := Some(product);
      editForm := FormFor(product);
    }

    /** `handleEditChange` for the name, description and category inputs. */
    method HandleEditChange(field: EditField, value: string)
      modifies this
      ensures editForm == match field
        case NameField => old(editForm).(name := value)
        case DescriptionField => old(editForm).(description := value)
        case CategoryField => old(editForm).(category := value)
      ensures products == old(products) && categories == old(categories) && editProduct == old(editProduct)
      ensures sent == old(sent) && loading == old(loading) && error == old(error) && redirect == old(redirect)
    {
      match field {
        case NameField => editForm := editForm.(name := value);
        case DescriptionField => editForm := editForm.(description := value);
        case CategoryField => editForm := editForm.(category := value);
      }
    }

    /** `handleEditChange` for the input named `price`. `parsed` is what
        `parseFloat` will make of the new text, `None` for NaN. */
    method HandleEditPriceChange(parsed: Option<int>)
      modifies this
      ensures editForm == old(editForm).(price := parsed)
      ensures products == old(products) && categories == old(categories) && editProduct == old(editProduct)
      ensures sent == old(sent) && loading == old(loading) && error == old(error) && redirect == old(redirect)
    {
      editForm := editForm.(price := parsed);
    }

    /** `handleEditSubmit`: on success the edited product is replaced by the
        server's record and the editor closes; on failure nothing changes.
        With no product under edit the handler fails before any request. */
    method HandleEditSubmit(outcome: Response<Product>)
      modifies this
      ensures old(editProduct).None? ==> sent == old(sent) && products == old(products) && editProduct == None
      ensures old(editProduct).Some? ==>
        sent == old(sent) + [PutProduct(old(editProduct).value.productId, EditPayload(old(editForm)))]
      ensures old(editProduct).Some? && outcome.Ok? ==>
        && products == WithReplacedProduct(old(products), old(editProduct).value.productId, outcome.data)
        && editProduct == None
      ensures outcome.Err? ==> products == old(products) && editProduct == old(editProduct)
      ensures categories == old(categories) && editForm == old(editForm)
      ensures loading == old(loading) && error == old(error) && redirect == old(redirect)
    {
      if editProduct.None? {
        return;
      }
      var id := editProduct.value.productId;
      sent := sent + [PutProduct(id, EditPayload(editForm))];
      if outcome.Ok? {
        products := WithReplacedProduct(products, id, outcome.data);
        editProduct := None;
      }
    }
  }
}
