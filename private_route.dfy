/** The route gate placed around the signed-in pages. */
module PrivateRoute {
  import opened Common
  import Auth

  /** What the gate renders. */
  datatype View = CheckingAuthentication | RedirectTo(path: string) | ChildRoute

  /** Loading first, then no user to /login, then a non-admin on an
      admin-only route to /, and otherwise the child route. */
  function Gate(isLoading: bool, currentUser: Option<SessionUser>, adminOnly: bool): (v: View)
    ensures isLoading ==> v == CheckingAuthentication
    ensures !isLoading && currentUser.None? ==> v == RedirectTo("/login")
    ensures !isLoading && currentUser.Some? && adminOnly && currentUser.value.role != "admin" ==> v == RedirectTo("/")
    ensures v == ChildRoute <==> !isLoading && currentUser.Some? && (!adminOnly || currentUser.value.role == "admin")
  {
    if isLoading then CheckingAuthentication
    else if currentUser.None? then RedirectTo("/login")
    else if adminOnly && currentUser.value.role != "admin" then RedirectTo("/")
    else ChildRoute
  }

  /** An admin-only page opens exactly for a signed-in administrator once
      loading is over; any other page for any signed-in user. */
  lemma GateMatchesSession(isLoading: bool, u: Option<SessionUser>)
    ensures Gate(isLoading, u, true) == ChildRoute <==> !isLoading && Auth.IsAdminUser(u)
    ensures Gate(isLoading, u, false) == ChildRoute <==> !isLoading && Auth.IsSignedIn(u)
  {
  }

  /** Whatever opens an admin-only page opens every other page too. */
  lemma AdminRoutesAreNarrower(isLoading: bool, u: Option<SessionUser>)
    ensures Gate(isLoading, u, true) == ChildRoute ==> Gate(isLoading, u, false) == ChildRoute
  {
  }

  /** After a sign-in has gone through, the user's pages open. */
  method GateAfterLogin(session: Auth.AuthProvider, u: SessionUser) returns (v: View)
    modifies session
    ensures v == ChildRoute
    ensures session.currentUser == Some(u)
  {
    session.Login(u);
    v := Gate(session.isLoading, session.currentUser, false);
  }
}
