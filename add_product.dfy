/** The administrators' new-product form: the admin gate, field validation,
    the request body, and the message shown for each kind of failure. */
module AddProduct {
  import opened Api
  import opened Guards

  datatype ProductForm = ProductForm(name: string, price: string, description: string, categoryName: string)

  const EmptyForm: ProductForm := ProductForm("", "", "", "")

  datatype FormField = NameField | PriceField | DescriptionField | CategoryNameField

  datatype AddError =
    | LoginRequired                                // no persisted token
    | AdminOnly                                    // signed in, but not ADMIN
    | MissingFields                                // some field is empty
    | PriceNotPositive                             // not a number, or not above zero
    | Unauthorized                                 // the backend answered 403
    | InvalidData(detail: string)                  // 400
    | ServerError(detail: string)                  // 500
    | AddFailed(status: Option<int>, detail: string) // anything else

  datatype Validated = Accepted(payload: ProductPayload) | Rejected(error: AddError)

  /** The client-side checks, in order: every field present, then a positive
      numeric price. `parsedPrice` is `Number(price)`, None when it is NaN. */
  function Validate(form: ProductForm, parsedPrice: Option<int>): (v: Validated)
    ensures v.Accepted? <==>
      form.name != "" && form.price != "" && form.description != "" && form.categoryName != ""
      && parsedPrice.Some? && parsedPrice.value > 0
    ensures (form.name == "" || form.price == "" || form.description == "" || form.categoryName == "") ==>
      v == Rejected(MissingFields)
    ensures (form.name != "" && form.price != "" && form.description != "" && form.categoryName != ""
             && (parsedPrice.None? || parsedPrice.value <= 0)) ==>
      v == Rejected(PriceNotPositive)
    ensures v.Accepted? ==> v.payload == ProductPayload(form.name, parsedPrice, form.description, form.categoryName)
    ensures v.Rejected? ==> v.error == MissingFields || v.error == PriceNotPositive
  {
    if form.name == "" || form.price == "" || form.description == "" || form.categoryName == "" then
      Rejected(MissingFields)
    else if parsedPrice.None? || parsedPrice.value <= 0 then
      Rejected(PriceNotPositive)
    else
      Accepted(ProductPayload(form.name, parsedPrice, form.description, form.categoryName))
  }

  /** The message for a failed `POST /product`, chosen by status. */
  function SubmitError(err: ApiError): (e: AddError)
    ensures err.status == Some(403) <==> e == Unauthorized
    ensures err.status == Some(400) <==> e.InvalidData?
    ensures err.status == Some(500) <==> e.ServerError?
    ensures e.InvalidData? ==> e.detail == Or(err.dataError, "Invalid product data")
    ensures e.ServerError? ==> e.detail == Or(err.dataError, "Please try again later")
    ensures e.AddFailed? ==> e.status == err.status && e.detail == Or(err.dataError, err.message)
    ensures e.Unauthorized? || e.InvalidData? || e.ServerError? || e.AddFailed?
  {
    if err.status == Some(403) then Unauthorized
    else if err.status == Some(400) then InvalidData(Or(err.dataError, "Invalid product data"))
    else if err.status == Some(500) then ServerError(Or(err.dataError, "Please try again later"))
    else AddFailed(err.status, Or(err.dataError, err.message))
  }

  class AddProductPage {
    var formData: ProductForm
    var error: Option<AddError>
    var success: bool
    var redirect: Option<Route>
    var sent: seq<Request>

    constructor ()
      ensures formData == EmptyForm && error == None && !success && redirect == None && sent == []
    {
      formData := EmptyForm;
      error := None;
      success := false;
      redirect := None;
      sent := [];
    }

    /** The mount effect: the admin gate. */
    method Mount(stored: Option<string>, user: Option<ProfileData>)
      modifies this
      ensures var g := AdminGate(stored, user);
        && (g == Pass ==> redirect == old(redirect) && error == old(error))
        && (g == Deny(ToLogin) ==> redirect == Some(ToLogin) && error == Some(LoginRequired))
        && (g == Deny(ToHome) ==> redirect == Some(ToHome) && error == Some(AdminOnly))
      ensures formData == old(formData) && success == old(success) && sent == old(sent)
    {
      match AdminGate(stored, user) {
        case Pass =>
        case Deny(to) =>
          error := if to == ToLogin then Some(LoginRequired) else Some(AdminOnly);
          redirect := Some(to);
      }
    }

    /** `handleChange` */
    method HandleChange(field: FormField, value: string)
      modifies this
      ensures formData == match field
        case NameField => old(formData).(name := value)
        case PriceField => old(formData).(price := value)
        case DescriptionField => old(formData).(description := value)
        case CategoryNameField => old(formData).(categoryName := value)
      ensures error == old(error) && success == old(success) && redirect == old(redirect) && sent == old(sent)
    {
      match field {
        case NameField => formData := formData.(name := value);
        case PriceField => formData := formData.(price := value);
        case DescriptionField => formData := formData.(description := value);
        case CategoryNameField => formData := formData.(categoryName := value);
      }
    }

    /** `handleSubmit`: clear both messages, validate, post, then report.
        After a success the form is emptied and the product list follows. */
    method HandleSubmit(parsedPrice: Option<int>, outcome: Response<()>)
      modifies this
      ensures var v := Validate(old(formData), parsedPrice);
        && (v.Rejected? ==>
              && error == Some(v.error) && !success && sent == old(sent)
              && formData == old(formData) && redirect == old(redirect))
        && (v.Accepted? ==> sent == old(sent) + [PostProduct(v.payload)])
        && (v.Accepted? && outcome.Ok? ==>
              && error == None && success && formData == EmptyForm && redirect == Some(ToManageProducts))
        && (v.Accepted? && outcome.Err? ==>
              && error == Some(SubmitError(outcome.error)) && !success && formData == old(formData)
              && redirect == (if outcome.error.status == Some(403) then Some(ToLogin) else old(redirect)))
    {
      error := None;
      success := false;
      var v := Validate(formData, parsedPrice);
      if v.Rejected? {
        error := Some(v.error);
        return;
      }
      sent := sent + [PostProduct(v.payload)];
      match outcome {
        case Ok(_) =>
          success := true;
          formData := EmptyForm;
          redirect := Some(ToManageProducts);
        case Err(err) =>
          error := Some(SubmitError(err));
          if err.status == Some(403) {
            redirect := Some(ToLogin);
          }
      }
    }
  }
}
