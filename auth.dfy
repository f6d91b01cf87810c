/** The session provider: the signed-in user, the loading flag, and the copy
    of the user kept in the browser's storage under `jungleSafariUser`. */
module Auth {
  import opened Common

  /** `currentUser && currentUser.role === 'admin'` */
  predicate IsAdminUser(u: Option<SessionUser>) {
    u.Some? && u.value.role == "admin"
  }

  /** `!!currentUser` */
  predicate IsSignedIn(u: Option<SessionUser>) {
    u.Some?
  }

  /** The storage entry the effect leaves for a user state: the user's copy,
      or no entry (`removeItem`) when nobody is signed in. */
  function Persist(u: Option<SessionUser>): (entry: Option<SessionUser>)
    ensures entry.Some? <==> u.Some?
    ensures u.Some? ==> entry == u
  {
    if u.Some? then Some(u.value) else None
  }

  /** The initial user read back from a storage entry, null when absent. */
  function Restore(entry: Option<SessionUser>): (u: Option<SessionUser>)
    ensures u.Some? <==> entry.Some?
    ensures entry.Some? ==> u.value == entry.value
  {
    if entry.Some? then Some(entry.value) else None
  }

  /** A reload after the effect has run starts from the same user. */
  lemma {:induction false} ReloadRoundTrip(u: Option<SessionUser>)
    ensures Restore(Persist(u)) == u
    ensures Persist(Restore(Persist(u))) == Persist(u)
  {
    if u.Some? {
      assert Persist(u) == Some(u.value);
      assert Restore(Some(u.value)) == Some(u.value);
    }
  }

  /** `AuthProvider`: `currentUser` and `isLoading` are its state; `saved`
      is the storage entry. */
  class AuthProvider {
    var currentUser: Option<SessionUser>
    var isLoading: bool
    var saved: Option<SessionUser>

    /** After each effect run the storage mirrors the user. */
    predicate Mirrored()
      reads this
    {
      saved == Persist(currentUser)
    }

    /** Mounting: the user read back from the storage entry, still loading. */
    constructor (entry: Option<SessionUser>)
      ensures currentUser == Restore(entry) && isLoading && saved == entry
      ensures Mirrored()
    {
      currentUser := Restore(entry);
      isLoading := true;
      saved := entry;
      ReloadRoundTrip(entry);
    }

    /** The effect on `currentUser`: write or remove the entry, stop loading. */
    method Sync()
      modifies this
      ensures currentUser == old(currentUser) && saved == Persist(currentUser) && !isLoading
      ensures Mirrored()
    {
      saved := Persist(currentUser);
      isLoading := false;
    }

    /** `login(userData)` and the effect that follows. */
    method Login(userData: SessionUser)
      modifies this
      ensures currentUser == Some(userData) && saved == Some(userData) && !isLoading
      ensures IsSignedIn(currentUser) && Mirrored()
    {
      currentUser := Some(userData);
      Sync();
    }

    /** `logout()` and the effect that follows. */
    method Logout()
      modifies this
      ensures currentUser == None && saved == None && !isLoading
      ensures !IsSignedIn(currentUser) && !IsAdminUser(currentUser)
    {
      currentUser := None;
      Sync();
    }

    function IsAdmin(): (b: bool)
      reads this
      ensures b <==> currentUser.Some? && currentUser.value.role == "admin"
    {
      IsAdminUser(currentUser)
    }

    function IsAuthenticated(): (b: bool)
      reads this
      ensures b <==> currentUser.Some?
    {
      IsSignedIn(currentUser)
    }
  }

  /** Signing in, then reloading the page: the new provider starts with the
      same user; signing out, then reloading: nobody is signed in. */
  method LoginThenReload(entry: Option<SessionUser>, u: SessionUser) returns (reloaded: AuthProvider, signedOut: AuthProvider)
    ensures reloaded.currentUser == Some(u) && reloaded.IsAuthenticated()
    ensures reloaded.IsAdmin() <==> u.role == "admin"
    ensures signedOut.currentUser == None && !signedOut.IsAuthenticated()
  {
    var session := new AuthProvider(entry);
    session.Login(u);
    reloaded := new AuthProvider(session.saved);
    session.Logout();
    signedOut := new AuthProvider(session.saved);
  }
}
