/** The page gates shared by several pages: the admin gate of the three
    administration pages and the signed-in gate of the customer pages. */
module Guards {
  import opened Api

  datatype Gate = Pass | Deny(to: Route)

  predicate IsAdmin(user: Option<ProfileData>) {
    user.Some? && user.value.role == Some(Admin)
  }

  /** The admin gate: a missing persisted token sends the visitor to the
      login page, a user whose role is not ADMIN (or no user at all) to the
      home page; the token check comes first. */
  function AdminGate(stored: Option<string>, user: Option<ProfileData>): (g: Gate)
    ensures g == Pass <==> Truthy(stored) && user.Some? && user.value.role == Some(Admin)
    ensures !Truthy(stored) ==> g == Deny(ToLogin)
    ensures Truthy(stored) && !IsAdmin(user) ==> g == Deny(ToHome)
  {
    if !Truthy(stored) then Deny(ToLogin)
    else if !IsAdmin(user) then Deny(ToHome)
    else Pass
  }

  /** The signed-in gate: no user means the login page. */
  function UserGate(user: Option<ProfileData>): (g: Gate)
    ensures g == Pass <==> user.Some?
    ensures g != Pass ==> g == Deny(ToLogin)
  {
    if user.None? then Deny(ToLogin) else Pass
  }

  /** An ordinary customer never passes the admin gate, whatever token is
      stored. */
  lemma CustomerIsTurnedAway(stored: Option<string>, user: ProfileData)
    requires user.role == Some("USER")
    ensures AdminGate(stored, Some(user)) != Pass
    ensures Truthy(stored) ==> AdminGate(stored, Some(user)) == Deny(ToHome)
  {
    assert "USER" != Admin;
  }
}
