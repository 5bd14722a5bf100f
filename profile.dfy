/** The customer's profile page: the e-mail shown (from the profile or from
    the token's claims), the editable fields, updating and deleting the
    profile. */
module Profile {
  import opened Api
  import opened Guards
  import AuthContext

  const LoadFailed := "Failed to load profile"
  const UpdateFailed := "Failed to update profile"

  datatype EmailDisplay =
    | NotAvailable        // before anything is known
    | DecodingFailed      // the stored token could not be decoded
    | NoTokenAvailable    // nothing stored
    | Shown(email: string)
    | EmailNotAvailable   // neither the profile nor the token has one

  /** The e-mail claim of a token: the first truthy of `email`,
      `email_address`, `username` and `sub`. */
  function TokenEmail(c: Claims): (r: Option<string>)
    ensures r.Some? ==> Truthy(r)
    ensures Truthy(c.email) ==> r == c.email
    ensures !Truthy(c.email) && Truthy(c.emailAddress) ==> r == c.emailAddress
    ensures !Truthy(c.email) && !Truthy(c.emailAddress) && Truthy(c.username) ==> r == c.username
    ensures !Truthy(c.email) && !Truthy(c.emailAddress) && !Truthy(c.username) ==>
      r == (if Truthy(c.sub) then c.sub else None)
  {
    var xs := [c.email, c.emailAddress, c.username, c.sub];
    assert xs[0] == c.email && xs[1] == c.emailAddress && xs[2] == c.username && xs[3] == c.sub;
    FirstTruthy(xs)
  }

  /** The e-mail shown once the profile arrived: the profile's own, else the
      token's, else a notice. */
  function DisplayEmail(apiEmail: Option<string>, tokenEmail: Option<string>): (d: EmailDisplay)
    ensures Truthy(apiEmail) ==> d == Shown(apiEmail.value)
    ensures !Truthy(apiEmail) && Truthy(tokenEmail) ==> d == Shown(tokenEmail.value)
    ensures d == EmailNotAvailable <==> !Truthy(apiEmail) && !Truthy(tokenEmail)
    ensures d.Shown? ==> d.email != ""
  {
    if Truthy(apiEmail) then Shown(apiEmail.value)
    else if Truthy(tokenEmail) then Shown(tokenEmail.value)
    else EmailNotAvailable
  }

  /** The form filled from a profile: an absent field becomes ''. */
  function FormFrom(d: ProfileData): (f: ProfileFields)
    ensures f.fullName == (if d.fullName.Some? then d.fullName.value else "")
    ensures f.address == (if d.address.Some? then d.address.value else "")
    ensures f.phoneNumber == (if d.phoneNumber.Some? then d.phoneNumber.value else "")
  {
    ProfileFields(Or(d.fullName, ""), Or(d.address, ""), Or(d.phoneNumber, ""))
  }

  /** Saving the form and loading the answer back gives the same form when
      the server stores what it was sent. */
  lemma SavedFormRoundTrip(f: ProfileFields, d: ProfileData)
    requires d.fullName == Some(f.fullName) && d.address == Some(f.address) && d.phoneNumber == Some(f.phoneNumber)
    ensures FormFrom(d) == f
  {
  }

  datatype FieldName = FullName | Address | PhoneNumber

  class ProfilePage {
    var profile: Option<ProfileData>
    var formData: ProfileFields
    var emailDisplay: EmailDisplay
    var error: string
    var redirect: Option<Route>
    var sent: seq<Request>

    constructor ()
      ensures profile == None && formData == ProfileFields("", "", "") && emailDisplay == NotAvailable
      ensures error == "" && redirect == None && sent == []
    {
      profile := None;
      formData := ProfileFields("", "", "");
      emailDisplay := NotAvailable;
      error := "";
      redirect := None;
      sent := [];
    }

    /** The mount effect: without a user, go to the login page and fetch
        nothing; otherwise read the e-mail claim from the stored token and
        load the profile. `decoded` is the result of decoding `stored`. */
    method Mount(user: Option<ProfileData>, stored: Option<string>, decoded: Option<Claims>,
                 fetched: Response<ProfileData>)
      modifies this
      ensures UserGate(user) != Pass ==>
        && redirect == Some(ToLogin) && sent == old(sent)
        && profile == old(profile) && formData == old(formData)
        && emailDisplay == old(emailDisplay) && error == old(error)
      ensures UserGate(user) == Pass ==> sent == old(sent) + [GetProfile] && redirect == old(redirect)
      ensures UserGate(user) == Pass && fetched.Ok? ==>
        && profile == Some(fetched.data) && formData == FormFrom(fetched.data) && error == old(error)
        && emailDisplay == DisplayEmail(fetched.data.email,
             if Truthy(stored) && decoded.Some? then TokenEmail(decoded.value) else None)
      ensures UserGate(user) == Pass && fetched.Err? ==>
        && profile == old(profile) && formData == old(formData)
        && error == Or(fetched.error.dataMessage, LoadFailed)
        && emailDisplay == (if !Truthy(stored) then NoTokenAvailable
                            else if decoded.None? then DecodingFailed
                            else old(emailDisplay))
    {
      if user.None? {
        redirect := Some(ToLogin);
        return;
      }
      var tokenEmail: Option<string> := None;
      if Truthy(stored) {
        if decoded.Some? {
          tokenEmail := TokenEmail(decoded.value);
        } else {
          emailDisplay := DecodingFailed;
        }
      } else {
        emailDisplay := NoTokenAvailable;
      }
      sent := sent + [GetProfile];
      match fetched {
        case Ok(d) =>
          profile := Some(d);
          formData := FormFrom(d);
          emailDisplay := DisplayEmail(d.email, tokenEmail);
        case Err(err) =>
          error := Or(err.dataMessage, LoadFailed);
      }
    }

    method HandleChange(field: FieldName, value: string)
      modifies this
      ensures formData == match field
        case FullName => old(formData).(fullName := value)
        case Address => old(formData).(address := value)
        case PhoneNumber => old(formData).(phoneNumber := value)
      ensures profile == old(profile) && emailDisplay == old(emailDisplay)
      ensures error == old(error) && redirect == old(redirect) && sent == old(sent)
    {
      match field {
        case FullName => formData := formData.(fullName := value);
        case Address => formData := formData.(address := value);
        case PhoneNumber => formData := formData.(phoneNumber := value);
      }
    }

    /** `handleUpdate`: send exactly the three form fields; on success show
        what the server stored. */
    method HandleUpdate(outcome: Response<ProfileData>)
      modifies this
      ensures sent == old(sent) + [PutProfile(old(formData))]
      ensures outcome.Ok? ==> profile == Some(outcome.data) && formData == FormFrom(outcome.data) && error == old(error)
      ensures outcome.Err? ==>
        && profile == old(profile) && formData == old(formData)
        && error == Or(outcome.error.dataMessage, UpdateFailed)
      ensures emailDisplay == old(emailDisplay) && redirect == old(redirect)
    {
      sent := sent + [PutProfile(formData)];
      match outcome {
        case Ok(d) =>
          profile := Some(d);
          formData := FormFrom(d);
        case Err(err) =>
          error := Or(err.dataMessage, UpdateFailed);
      }
    }

    /** `handleDelete`: only after confirmation, and the session logs out only
        once the backend deleted the profile. */
    method HandleDelete(confirmed: bool, outcome: Response<()>, session: AuthContext.AuthProvider)
      requires session.Valid()
      modifies this, session
      ensures session.Valid()
      ensures !confirmed ==> sent == old(sent)
      ensures confirmed ==> sent == old(sent) + [DeleteProfile]
      ensures confirmed && outcome.Ok? ==>
        && session.token == None && session.stored == None && session.user == None && !session.loading
        && session.sent == old(session.sent)
      ensures !(confirmed && outcome.Ok?) ==> unchanged(session)
      ensures profile == old(profile) && formData == old(formData) && emailDisplay == old(emailDisplay)
      ensures error == old(error) && redirect == old(redirect)
    {
      if !confirmed {
        return;
      }
      sent := sent + [DeleteProfile];
      if outcome.Ok? {
        session.Logout();
      }
    }
  }
}
