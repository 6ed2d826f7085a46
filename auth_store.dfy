/** The authentication session (src/store/useAuthStore.ts): who is signed in, as which kind
    of user, and whether a call is in flight. Firebase Auth and the profile lookups are
    oracle parameters; the session listener's callback is the event `OnAuthStateChanged`. */
module Auth {
  import opened Base

  datatype UserType = Tourist | Seller

  /** `User`; the service's `UserProfile` has the same fields and is copied field by
      field, so one record stands for both. */
  datatype User = User(
    id: string,
    email: string,
    name: string,
    userType: UserType,
    createdAt: string,
    photoURL: Option<string>)

  datatype AuthError =
    | Service(error: RemoteError)
    | MissingFields
    | PasswordTooShort
    | RoleMismatch(registeredAs: UserType)
    | LogoutFailed

  const MinPasswordLength: nat := 6

  /** `register`'s input checks, in order: an empty email, password or name, then a
      password shorter than six characters. */
  function RegisterInputError(email: string, password: string, name: string): (e: Option<AuthError>)
    ensures e == Some(MissingFields) <==> email == "" || password == "" || name == ""
    ensures e == Some(PasswordTooShort) <==>
              email != "" && password != "" && name != "" && |password| < MinPasswordLength
    ensures e.None? <==> email != "" && name != "" && |password| >= MinPasswordLength
  {
    if email == "" || password == "" || name == "" then Some(MissingFields)
    else if |password| < MinPasswordLength then Some(PasswordTooShort)
    else None
  }

  /** What `partialize` writes to device storage: everything but `isLoading`. */
  datatype Session = Session(user: Option<User>, isAuthenticated: bool, userType: Option<UserType>)

  const SignedOut := Session(None, false, None)

  class AuthStore {
    var user: Option<User>
    var isAuthenticated: bool
    var isLoading: bool
    var userType: Option<UserType>

    function Persisted(): (r: Session)
      reads this
      ensures r.user == user && r.isAuthenticated == isAuthenticated && r.userType == userType
    {
      Session(user, isAuthenticated, userType)
    }

    /** The session fields move together: a user is present exactly when the session is
        authenticated, and then it has a type. */
    predicate Valid()
      reads this
    {
      (isAuthenticated <==> user.Some?) && (user.Some? <==> userType.Some?)
    }

    constructor()
      ensures Valid() && Persisted() == SignedOut && !isLoading
    {
      user := None;
      isAuthenticated := false;
      isLoading := false;
      userType := None;
    }

    /** `isUserType(t)`. */
    function IsUserType(t: UserType): (b: bool)
      reads this
      ensures b <==> isAuthenticated && userType == Some(t)
    {
      userType == Some(t) && isAuthenticated
    }

    /** `login(email, password, t)`: `signIn` is the answer of `loginUser` (the stored
        profile), `signOut` that of the sign-out issued on a role mismatch. A mismatch leaves
        the session as it was and throws the sign-out's error or the mismatch. */
    method Login(email: string, password: string, t: UserType, signIn: Remote<User>, signOut: Remote<()>)
      returns (outcome: Outcome<AuthError>, ghost loadingAtAwait: bool)
      requires Valid()
      modifies this
      ensures Valid() && loadingAtAwait && !isLoading
      ensures signIn.Rejected? ==>
                outcome == Thrown(Service(signIn.error)) && Persisted() == old(Persisted())
      ensures signIn.Answered? && signIn.value.userType != t ==>
                Persisted() == old(Persisted()) &&
                outcome == if signOut.Rejected? then Thrown(Service(signOut.error))
                           else Thrown(RoleMismatch(signIn.value.userType))
      ensures signIn.Answered? && signIn.value.userType == t ==>
                outcome == Done && Persisted() == Session(Some(signIn.value), true, Some(t)) &&
                IsUserType(t)
      ensures outcome.Thrown? ==> Persisted() == old(Persisted())
    {
      isLoading := true;
      loadingAtAwait := isLoading;
      if signIn.Rejected? {
        isLoading := false;
        return Thrown(Service(signIn.error)), loadingAtAwait;
      }
      var profile := signIn.value;
      if profile.userType != t {
        isLoading := false;
        if signOut.Rejected? {
          return Thrown(Service(signOut.error)), loadingAtAwait;
        }
        return Thrown(RoleMismatch(profile.userType)), loadingAtAwait;
      }
      user, isAuthenticated, userType, isLoading := Some(profile), true, Some(profile.userType), false;
      outcome := Done;
    }

    /** `register(email, password, name, t)`: the input checks fail before `signUp` (the
        answer of `registerUser`) is consulted. On success the session is the new profile
        with the requested type. */
    method Register(email: string, password: string, name: string, t: UserType, signUp: Remote<User>)
      returns (outcome: Outcome<AuthError>, ghost loadingAtAwait: bool)
      requires Valid()
      modifies this
      ensures Valid() && loadingAtAwait && !isLoading
      ensures RegisterInputError(email, password, name).Some? ==>
                outcome == Thrown(RegisterInputError(email, password, name).value) &&
                Persisted() == old(Persisted())
      ensures RegisterInputError(email, password, name).None? && signUp.Rejected? ==>
                outcome == Thrown(Service(signUp.error)) && Persisted() == old(Persisted())
      ensures RegisterInputError(email, password, name).None? && signUp.Answered? ==>
                outcome == Done && Persisted() == Session(Some(signUp.value), true, Some(t)) &&
                IsUserType(t)
    {
      isLoading := true;
      loadingAtAwait := isLoading;
      var invalid := RegisterInputError(email, password, name);
      if invalid.Some? {
        isLoading := false;
        return Thrown(invalid.value), loadingAtAwait;
      }
      if signUp.Rejected? {
        isLoading := false;
        return Thrown(Service(signUp.error)), loadingAtAwait;
      }
      user, isAuthenticated, userType, isLoading := Some(signUp.value), true, Some(t), false;
      outcome := Done;
    }

    /** `logout()`: `ack` is the answer of the sign-out. A failure keeps the session and
        throws its own error. */
    method Logout(ack: Remote<()>) returns (outcome: Outcome<AuthError>, ghost loadingAtAwait: bool)
      requires Valid()
      modifies this
      ensures Valid() && loadingAtAwait && !isLoading
      ensures ack.Answered? ==> outcome == Done && Persisted() == SignedOut
      ensures ack.Rejected? ==> outcome == Thrown(LogoutFailed) && Persisted() == old(Persisted())
    {
      isLoading := true;
      loadingAtAwait := isLoading;
      if ack.Rejected? {
        isLoading := false;
        return Thrown(LogoutFailed), loadingAtAwait;
      }
      user, isAuthenticated, userType, isLoading := None, false, None, false;
      outcome := Done;
    }

    /** `setLoading(loading)`. */
    method SetLoading(loading: bool)
      modifies this
      ensures isLoading == loading && Persisted() == old(Persisted())
    {
      isLoading := loading;
    }

    /** `initAuthListener()` when no auth instance is available: the session is cleared and
        nothing is loading. With an instance it only subscribes, which changes nothing; the
        callbacks are `OnAuthStateChanged`. */
    method InitAuthListener(authAvailable: bool)
      requires Valid()
      modifies this
      ensures Valid()
      ensures !authAvailable ==> Persisted() == SignedOut && !isLoading
      ensures authAvailable ==> Persisted() == old(Persisted()) && isLoading == old(isLoading)
    {
      if !authAvailable {
        user, isAuthenticated, userType, isLoading := None, false, None, false;
      }
    }

    /** The listener's callback. `uid` is the signed-in user, if any; `profile` is the answer
        of `getUserProfile(uid)`. No user clears the session; a found profile becomes the
        session; a missing profile, or a failed lookup, changes nothing. */
    method OnAuthStateChanged(uid: Option<string>, profile: Remote<Option<User>>)
      requires Valid()
      modifies this
      ensures Valid()
      ensures uid.None? ==> Persisted() == SignedOut && !isLoading
      ensures uid.Some? && profile.Answered? && profile.value.Some? ==>
                Persisted() == Session(profile.value, true, Some(profile.value.value.userType)) &&
                !isLoading && IsUserType(profile.value.value.userType)
      ensures uid.Some? && (profile.Rejected? || profile.value.None?) ==>
                Persisted() == old(Persisted()) && isLoading == old(isLoading)
    {
      if uid.None? {
        user, isAuthenticated, userType, isLoading := None, false, None, false;
        return;
      }
      if profile.Answered? && profile.value.Some? {
        var p := profile.value.value;
        user, isAuthenticated, userType, isLoading := Some(p), true, Some(p.userType), false;
      }
    }
  }

  /** Signing in from a signed-out session with a profile of the other type throws,
      whatever the sign-out answers, and the session stays signed out. */
  method LoginRoleScenario(t: UserType, profile: User, signOut: Remote<()>)
    requires profile.userType != t
  {
    var store := new AuthStore();
    var outcome, loading := store.Login(profile.email, "secret", t, Answered(profile), signOut);
    assert outcome.Thrown? && !store.isAuthenticated && store.user.None?;
  }
}
