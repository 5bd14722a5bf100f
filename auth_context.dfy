/** The session store: the bearer token, the hydrated user, the loading flag
    and the token persisted in the browser's local storage. */
module AuthContext {
  import opened Api

  /** A token is expired when the clock, in milliseconds, has reached its
      `exp` claim times 1000. A token without `exp` is never expired: the
      comparison with the missing value is false. */
  predicate IsExpired(claims: Claims, now: nat) {
    claims.exp.Some? && now >= claims.exp.value * 1000
  }

  /** A token without `exp` is never expired, and an expired token stays
      expired as the clock moves on. */
  lemma ExpiryIsFinal(claims: Claims, now: nat, later: nat)
    ensures claims.exp.None? ==> !IsExpired(claims, now)
    ensures IsExpired(claims, now) && now <= later ==> IsExpired(claims, later)
  {
  }

  /** How one hydration of the current token ends. */
  datatype Hydration =
    | NoToken                       // nothing to hydrate
    | DecodeFailed                  // the token could not be decoded
    | Expired                       // decoded, but past its expiry
    | FetchFailed(error: ApiError)  // the profile request failed
    | Hydrated(user: ProfileData)   // the profile, with the token's claims merged in

  /** Whether the hydration issued the profile request. */
  predicate FetchesProfile(h: Hydration) {
    h.FetchFailed? || h.Hydrated?
  }

  /** The user record: the fetched profile with `email` and `role` replaced by
      the token's claims, even when the claims lack them. */
  function MergeClaims(profile: ProfileData, claims: Claims): (u: ProfileData)
    ensures u.email == claims.email && u.role == claims.role
    ensures u.(email := profile.email, role := profile.role) == profile
  {
    profile.(email := claims.email, role := claims.role)
  }

  /** The decision of one hydration, given the result of decoding the token,
      the clock and the outcome of the profile request. */
  function Hydrate(token: Option<string>, decoded: Option<Claims>, now: nat, fetched: Response<ProfileData>): (h: Hydration)
    ensures h.NoToken? <==> !Truthy(token)
    ensures FetchesProfile(h) <==> Truthy(token) && decoded.Some? && !IsExpired(decoded.value, now)
    ensures Truthy(token) && decoded.Some? && IsExpired(decoded.value, now) ==> h == Expired
    ensures h.Hydrated? <==> Truthy(token) && decoded.Some? && !IsExpired(decoded.value, now) && fetched.Ok?
    ensures h.Hydrated? ==>
      && h.user.email == decoded.value.email
      && h.user.role == decoded.value.role
      && h.user.(email := fetched.data.email, role := fetched.data.role) == fetched.data
  {
    if !Truthy(token) then NoToken
    else if decoded.None? then DecodeFailed
    else if IsExpired(decoded.value, now) then Expired
    else match fetched
      case Err(e) => FetchFailed(e)
      case Ok(profile) => Hydrated(MergeClaims(profile, decoded.value))
  }

  /** The facts established by the last successful expiry check. */
  datatype Validation = Validation(token: string, claims: Claims, now: nat)

  class AuthProvider {
    var token: Option<string>
    var user: Option<ProfileData>
    var loading: bool
    /** The browser's persisted `token` entry. */
    var stored: Option<string>
    /** Requests this store has issued. */
    var sent: seq<Request>
    ghost var validated: Option<Validation>

    /** The persisted token is always the session's token, and a settled
        session holds a user only for a token that was unexpired when it was
        checked. */
    ghost predicate Valid()
      reads this
    {
      && stored == token
      && (!loading && user.Some? ==>
            && token.Some?
            && validated.Some?
            && validated.value.token == token.value
            && !IsExpired(validated.value.claims, validated.value.now))
    }

    /** Application start: the token is read back from storage and hydration
        is pending. */
    constructor (persisted: Option<string>)
      ensures Valid()
      ensures token == persisted && stored == persisted
      ensures user == None && loading && sent == []
    {
      token := persisted;
      stored := persisted;
      user := None;
      loading := true;
      sent := [];
      validated := None;
    }

    /** Hydration of the current token; it runs whenever the token changes. */
    method FetchUserProfile(decoded: Option<Claims>, now: nat, fetched: Response<ProfileData>)
      requires Valid()
      modifies this
      ensures Valid() && !loading
      ensures var h := Hydrate(old(token), decoded, now, fetched);
        && sent == (if FetchesProfile(h) then old(sent) + [GetProfile] else old(sent))
        && (h.Hydrated? ==> user == Some(h.user) && token == old(token) && stored == old(stored))
        && (h.NoToken? ==> user == None && token == old(token) && stored == old(stored))
        && (!h.Hydrated? && !h.NoToken? ==> user == None && token == None && stored == None)
    {
      var h := Hydrate(token, decoded, now, fetched);
      if FetchesProfile(h) {
        sent := sent + [GetProfile];
      }
      match h {
        case NoToken =>
          user := None;
        case Hydrated(u) =>
          user := Some(u);
          validated := Some(Validation(token.value, decoded.value, now));
        case _ =>
          user := None;
          token := None;
          stored := None;
      }
      loading := false;
    }

    /** `login(t)`: persist the new token and wait for its hydration; the
        previous user stays until then. */
    method Login(newToken: string)
      requires Valid()
      modifies this
      ensures Valid()
      ensures stored == Some(newToken) && token == Some(newToken) && loading
      ensures user == old(user) && sent == old(sent)
    {
      loading := true;
      stored := Some(newToken);
      token := Some(newToken);
    }

    /** `logout()`: forget the token and the user at once, without a request. */
    method Logout()
      requires Valid()
      modifies this
      ensures Valid()
      ensures stored == None && token == None && user == None && !loading
      ensures sent == old(sent) && validated == old(validated)
    {
      loading := true;
      stored := None;
      token := None;
      user := None;
      loading := false;
    }
  }

  /** Logging out twice leaves the store as logging out once does; `once` is
      the store's state after the first logout. */
  method LogoutTwice(store: AuthProvider)
      returns (ghost once: (Option<string>, Option<string>, Option<ProfileData>, bool, seq<Request>, Option<Validation>))
    requires store.Valid()
    modifies store
    ensures store.Valid()
    ensures store.stored == None && store.token == None && store.user == None && !store.loading
    ensures store.sent == old(store.sent)
    ensures (store.stored, store.token, store.user, store.loading, store.sent, store.validated) == once
  {
    store.Logout();
    once := (store.stored, store.token, store.user, store.loading, store.sent, store.validated);
    store.Logout();
  }
}
