/** The HTTP client's two interceptors: every request carries the stored
    access token as a bearer credential, and a 401 or 403 answer signs the
    user out before the error reaches the caller. */
module ApiConfig {
  import opened Common
  import opened TokenStore

  const AuthorizationHeaderName := "Authorization"
  const LoginRoute := "/login"

  /** The request interceptor: headers after it has run; `Authorization`
      is set only for a truthy (present, non-empty) token. */
  function WithAuthorization(headers: map<string, string>, token: Option<string>): (r: map<string, string>)
    ensures AuthorizationHeaderName in r <==> AuthorizationHeaderName in headers || (token.Some? && token.value != "")
    ensures token.Some? && token.value != "" ==> r[AuthorizationHeaderName] == "Bearer " + token.value
    ensures !(token.Some? && token.value != "") ==> r == headers
    ensures forall k :: k in headers && k != AuthorizationHeaderName ==> k in r && r[k] == headers[k]
    ensures forall k :: k in r ==> k in headers || k == AuthorizationHeaderName
  {
    if token.Some? && token.value != "" then headers[AuthorizationHeaderName := "Bearer " + token.value]
    else headers
  }

  /** A status that signs the user out. A failure without a response (a
      network error) has no status. */
  predicate IsAuthFailure(status: Option<int>) {
    status == Some(401) || status == Some(403)
  }

  /** The response interceptor's error branch. The error is rejected to the
      caller in both cases; on 401/403 the stored session is cleared first
      and the browser is sent to the login route. */
  method OnResponseError(store: Store, status: Option<int>) returns (redirect: Option<string>)
    modifies store
    ensures IsAuthFailure(status) ==> store.items == Cleared(old(store.items)) && redirect == Some(LoginRoute)
    ensures !IsAuthFailure(status) ==> store.items == old(store.items) && redirect == None
  {
    if IsAuthFailure(status) {
      store.ClearTokens();
      redirect := Some(LoginRoute);
    } else {
      redirect := None;
    }
  }

  /** The header the interceptor attaches is always the stored token. */
  lemma AuthorizationUsesStoredToken(headers: map<string, string>, items: map<string, string>)
    requires TokenKey in items && items[TokenKey] != ""
    ensures WithAuthorization(headers, if TokenKey in items then Some(items[TokenKey]) else None)[AuthorizationHeaderName]
            == "Bearer " + items[TokenKey]
  {
  }

  /** After an auth failure has cleared the store, later requests carry no
      credential of their own. */
  lemma NoCredentialAfterSignOut(headers: map<string, string>, items: map<string, string>)
    requires AuthorizationHeaderName !in headers
    ensures var c := Cleared(items);
            AuthorizationHeaderName !in WithAuthorization(headers, if TokenKey in c then Some(c[TokenKey]) else None)
  {
  }
}
