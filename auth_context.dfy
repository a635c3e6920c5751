/** The authentication provider: the signed-in user, restored from storage
    on mount, and the sign-up, login, logout and profile-update actions.
    Each backend call is replaced by its outcome. */
module AuthContext {
  import opened Common
  import Js
  import opened TokenStore
  import opened ApiConfig

  /** A backend call either answers or is rejected with an HTTP status (if
      there was a response) and the response body (`Undefined` if none). */
  datatype AuthOutcome =
    | Authenticated(user: User, access: string, refresh: string)
    | Rejected(status: Option<int>, data: Js.Value)

  datatype ProfileOutcome = ProfileUpdated(user: User) | ProfileRejected(status: Option<int>)

  /** What signup and login resolve to. */
  datatype AuthResult = AuthResult(success: bool, error: Option<Js.Value>)

  const SignupFallback := "Signup failed"
  const LoginFallback := "Invalid credentials"

  /** Login's error: the body's `message`, else its `error`, else the
      fallback text. It is always truthy, so callers always get something
      to show. */
  function LoginError(data: Js.Value): (e: Js.Value)
    ensures Js.Truthy(e)
    ensures Js.Truthy(Js.Get(data, "message")) ==> e == Js.Get(data, "message")
    ensures !Js.Truthy(Js.Get(data, "message")) && Js.Truthy(Js.Get(data, "error")) ==> e == Js.Get(data, "error")
    ensures !Js.Truthy(Js.Get(data, "message")) && !Js.Truthy(Js.Get(data, "error")) ==> e == Js.Str(LoginFallback)
  {
    Js.Or(Js.Get(data, "message"), Js.Or(Js.Get(data, "error"), Js.Str(LoginFallback)))
  }

  /** Sign-up's error: the body's `message`, else its `errors` (a field-to-
      messages object), else `{general: error || 'Signup failed'}`. */
  function SignupError(data: Js.Value): (e: Js.Value)
    ensures Js.Truthy(e)
    ensures Js.Truthy(Js.Get(data, "message")) ==> e == Js.Get(data, "message")
    ensures !Js.Truthy(Js.Get(data, "message")) && Js.Truthy(Js.Get(data, "errors")) ==> e == Js.Get(data, "errors")
    ensures !Js.Truthy(Js.Get(data, "message")) && !Js.Truthy(Js.Get(data, "errors")) ==>
              e == Js.Obj([("general", Js.Or(Js.Get(data, "error"), Js.Str(SignupFallback)))])
  {
    Js.Or(Js.Get(data, "message"),
          Js.Or(Js.Get(data, "errors"),
                Js.Obj([("general", Js.Or(Js.Get(data, "error"), Js.Str(SignupFallback)))])))
  }

  /** The user the mount effect restores: one is restored only when a
      truthy access token and a parsed user are both stored. */
  function RestoredUser(items: map<string, string>, decode: string -> Option<User>): (u: Option<User>)
    ensures u.Some? <==> TokenKey in items && items[TokenKey] != "" && ReadUser(items, decode).Parsed?
    ensures u.Some? ==> ReadUser(items, decode) == Parsed(u.value)
  {
    if TokenKey in items && items[TokenKey] != "" && ReadUser(items, decode).Parsed? then
      Some(ReadUser(items, decode).user)
    else None
  }

  /** A user saved together with a truthy token is restored on the next
      mount, given a JSON conversion that round-trips. */
  lemma LoginSurvivesReload(items: map<string, string>, encode: User -> string, decode: string -> Option<User>,
                            u: User, access: string, refresh: string)
    requires encode(u) != "" && decode(encode(u)) == Some(u) && access != ""
    ensures RestoredUser(items[TokenKey := access][RefreshTokenKey := refresh][UserKey := encode(u)], decode) == Some(u)
  {
    var s := items[TokenKey := access][RefreshTokenKey := refresh][UserKey := encode(u)];
    UserRoundTrip(items[TokenKey := access][RefreshTokenKey := refresh], encode, decode, u);
    assert s[TokenKey] == access;
  }

  /** After a sign-out (logout, or a 401/403 answer) nothing is restored. */
  lemma NothingRestoredAfterSignOut(items: map<string, string>, decode: string -> Option<User>)
    ensures RestoredUser(Cleared(items), decode) == None
  {
  }

  class Auth {
    const store: Store
    var user: Option<User>
    var isLoading: bool

    constructor (store: Store)
      ensures this.store == store && user == None && isLoading
    {
      this.store := store;
      user := None;
      isLoading := true;
    }

    function IsAuthenticated(): (r: bool)
      reads this
      ensures r <==> user.Some?
    {
      user.Some?
    }

    /** The mount effect. Text that JSON parsing rejects makes the effect
      throw: then nothing changes and `threw` is set. */
    method Mount() returns (threw: bool)
      modifies this
      ensures threw <==> old(store.GetUser()) == Corrupt
      ensures threw ==> user == old(user) && isLoading == old(isLoading)
      ensures !threw ==> !isLoading
      ensures !threw ==> user == (if RestoredUser(store.items, store.decode).Some?
                                  then RestoredUser(store.items, store.decode) else old(user))
    {
      var token := store.GetAccessToken();
      var saved := store.GetUser();
      if saved == Corrupt {
        return true;
      }
      if token.Some? && token.value != "" && saved.Parsed? {
        user := Some(saved.user);
      }
      isLoading := false;
      threw := false;
    }

    method Signup(outcome: AuthOutcome) returns (result: AuthResult, redirect: Option<string>)
      modifies this, store
      ensures outcome.Authenticated? ==>
        && store.items == old(store.items)[TokenKey := outcome.access][RefreshTokenKey := outcome.refresh]
                                        [UserKey := store.encode(outcome.user)]
        && user == Some(outcome.user) && result == AuthResult(true, None) && redirect == None
      ensures outcome.Rejected? ==>
        && result == AuthResult(false, Some(SignupError(outcome.data)))
        && user == old(user)
        && (IsAuthFailure(outcome.status) ==> store.items == Cleared(old(store.items)) && redirect == Some(LoginRoute))
        && (!IsAuthFailure(outcome.status) ==> store.items == old(store.items) && redirect == None)
      ensures isLoading == old(isLoading)
    {
      match outcome {
        case Authenticated(u, access, refresh) =>
          store.SetTokens(access, refresh);
          store.SetUser(u);
          user := Some(u);
          result, redirect := AuthResult(true, None), None;
        case Rejected(status, data) =>
          redirect := OnResponseError(store, status);
          result := AuthResult(false, Some(SignupError(data)));
      }
    }

    method Login(outcome: AuthOutcome) returns (result: AuthResult, redirect: Option<string>)
      modifies this, store
      ensures outcome.Authenticated? ==>
        && store.items == old(store.items)[TokenKey := outcome.access][RefreshTokenKey := outcome.refresh]
                                        [UserKey := store.encode(outcome.user)]
        && user == Some(outcome.user) && result == AuthResult(true, None) && redirect == None
      ensures outcome.Rejected? ==>
        && result == AuthResult(false, Some(LoginError(outcome.data)))
        && user == old(user)
        && (IsAuthFailure(outcome.status) ==> store.items == Cleared(old(store.items)) && redirect == Some(LoginRoute))
        && (!IsAuthFailure(outcome.status) ==> store.items == old(store.items) && redirect == None)
      ensures isLoading == old(isLoading)
    {
      match outcome {
        case Authenticated(u, access, refresh) =>
          store.SetTokens(access, refresh);
          store.SetUser(u);
          user := Some(u);
          result, redirect := AuthResult(true, None), None;
        case Rejected(status, data) =>
          redirect := OnResponseError(store, status);
          result := AuthResult(false, Some(LoginError(data)));
      }
    }

    method Logout()
      modifies this, store
      ensures store.items == Cleared(old(store.items)) && user == None && isLoading == old(isLoading)
      ensures !IsAuthenticated()
    {
      store.ClearTokens();
      user := None;
    }

    /** updateProfile rethrows a rejection; `threw` reports it. */
    method UpdateProfile(outcome: ProfileOutcome) returns (threw: bool, redirect: Option<string>)
      modifies this, store
      ensures threw <==> outcome.ProfileRejected?
      ensures outcome.ProfileUpdated? ==>
        store.items == old(store.items)[UserKey := store.encode(outcome.user)] && user == Some(outcome.user) && redirect == None
      ensures outcome.ProfileRejected? ==> user == old(user)
      ensures outcome.ProfileRejected? && IsAuthFailure(outcome.status) ==>
        store.items == Cleared(old(store.items)) && redirect == Some(LoginRoute)
      ensures outcome.ProfileRejected? && !IsAuthFailure(outcome.status) ==>
        store.items == old(store.items) && redirect == None
      ensures isLoading == old(isLoading)
    {
      match outcome {
        case ProfileUpdated(u) =>
          store.SetUser(u);
          user := Some(u);
          threw, redirect := false, None;
        case ProfileRejected(status) =>
          redirect := OnResponseError(store, status);
          threw := true;
      }
    }
  }
}
