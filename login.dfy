/** The sign-in page: post the credentials, hand the token to the session
    store, and go home once the session has a user. */
module Login {
  import opened Api
  import AuthContext

  const LoginFailed := "Login failed"

  datatype FieldName = Email | Password

  /** The redirect condition of the page's effect. */
  function ShouldGoHome(loginTriggered: bool, loading: bool, user: Option<ProfileData>): (go: bool)
    ensures !loginTriggered || loading || user.None? ==> !go
    ensures loginTriggered && !loading && user.Some? ==> go
  {
    loginTriggered && !loading && user.Some?
  }

  class LoginPage {
    var email: string
    var password: string
    var error: string
    var loginTriggered: bool
    var redirect: Option<Route>
    var sent: seq<Request>

    constructor ()
      ensures email == "" && password == "" && error == "" && !loginTriggered && redirect == None && sent == []
    {
      email := "";
      password := "";
      error := "";
      loginTriggered := false;
      redirect := None;
      sent := [];
    }

    method HandleChange(field: FieldName, value: string)
      modifies this
      ensures email == (if field == Email then value else old(email))
      ensures password == (if field == Password then value else old(password))
      ensures error == old(error) && loginTriggered == old(loginTriggered)
      ensures redirect == old(redirect) && sent == old(sent)
    {
      if field == Email {
        email := value;
      } else {
        password := value;
      }
    }

    /** `handleSubmit`. The submit button is disabled while the session is
        loading, so a submission then does nothing. Otherwise the error is
        cleared, the credentials are posted, and only a successful post that
        reached `login` marks the attempt as triggered. */
    method HandleSubmit(session: AuthContext.AuthProvider, outcome: Response<string>)
      requires session.Valid()
      modifies this, session
      ensures session.Valid()
      ensures old(session.loading) ==> unchanged(this) && unchanged(session)
      ensures !old(session.loading) ==> sent == old(sent) + [PostLogin(old(email), old(password))]
      ensures !old(session.loading) && outcome.Ok? ==>
        && loginTriggered && error == ""
        && session.token == Some(outcome.data) && session.stored == Some(outcome.data) && session.loading
        && session.user == old(session.user) && session.sent == old(session.sent)
      ensures !old(session.loading) && outcome.Err? ==>
        && loginTriggered == old(loginTriggered) && error == Or(outcome.error.dataMessage, LoginFailed)
        && unchanged(session)
      ensures email == old(email) && password == old(password) && redirect == old(redirect)
    {
      if session.loading {
        return;
      }
      error := "";
      sent := sent + [PostLogin(email, password)];
      match outcome {
        case Ok(token) =>
          session.Login(token);
          loginTriggered := true;
        case Err(err) =>
          error := Or(err.dataMessage, LoginFailed);
      }
    }

    /** The redirect effect, run whenever the session's loading flag or user
        changes. */
    method Effect(loading: bool, user: Option<ProfileData>)
      modifies this
      ensures redirect == (if ShouldGoHome(loginTriggered, loading, user) then Some(ToHome) else old(redirect))
      ensures email == old(email) && password == old(password) && error == old(error)
      ensures loginTriggered == old(loginTriggered) && sent == old(sent)
    {
      if ShouldGoHome(loginTriggered, loading, user) {
        redirect := Some(ToHome);
      }
    }
  }

  /** A successful sign-in does not leave the page while the new token is
      being hydrated (`whileHydrating` is the redirect then), and does once
      hydration produced a user. Hydration runs because the token changed. */
  method SignInThenHydrate(page: LoginPage, session: AuthContext.AuthProvider, token: string,
                           claims: Claims, now: nat, profile: ProfileData)
      returns (ghost whileHydrating: Option<Route>)
    requires session.Valid() && !session.loading && page.redirect == None
    requires session.token != Some(token)
    requires token != "" && !AuthContext.IsExpired(claims, now)
    modifies page, session
    ensures session.user == Some(AuthContext.MergeClaims(profile, claims))
    ensures whileHydrating == None
    ensures page.redirect == Some(ToHome)
  {
    page.HandleSubmit(session, Ok(token));
    page.Effect(session.loading, session.user);
    whileHydrating := page.redirect;
    session.FetchUserProfile(Some(claims), now, Ok(profile));
    page.Effect(session.loading, session.user);
  }

  /** A sign-in that returns the token the session already holds. `login`
      sets `loading`, but the token does not change, so hydration does not run
      again and nothing clears `loading`: the page never goes home, and the
      disabled button ignores a further submission. */
  method SignInWithHeldToken(page: LoginPage, session: AuthContext.AuthProvider, token: string,
                             retry: Response<string>)
    requires session.Valid() && !session.loading && page.redirect == None
    requires session.token == Some(token)
    modifies page, session
    ensures session.Valid()
    ensures session.loading && session.token == old(session.token) && session.user == old(session.user)
    ensures page.loginTriggered && page.redirect == None
    ensures page.sent == old(page.sent) + [PostLogin(old(page.email), old(page.password))]
  {
    page.HandleSubmit(session, Ok(token));
    page.Effect(session.loading, session.user);
    page.HandleSubmit(session, retry);
    page.Effect(session.loading, session.user);
  }
}
