/** The browser-storage helpers that keep the session: two tokens and the
    signed-in user as JSON text under three fixed keys. JSON text
    conversion is a pair of functions given to the store. */
module TokenStore {
  import opened Common

  const TokenKey := "access_token"
  const RefreshTokenKey := "refresh_token"
  const UserKey := "user"

  /** The signed-in user as the backend describes it. */
  datatype User = User(id: int, email: string, firstName: string, lastName: string, dateJoined: Option<string>)

  /** Outcome of reading the user back: nothing stored (or an empty item),
      a parsed user, or text that JSON parsing rejects (the source throws). */
  datatype UserRead = NoUser | Parsed(user: User) | Corrupt

  /** getUser over a storage snapshot. */
  function ReadUser(items: map<string, string>, decode: string -> Option<User>): (r: UserRead)
    ensures (UserKey !in items || items[UserKey] == "") <==> r == NoUser
    ensures r.Parsed? ==> decode(items[UserKey]) == Some(r.user)
    ensures r == Corrupt <==> UserKey in items && items[UserKey] != "" && decode(items[UserKey]).None?
  {
    if UserKey !in items || items[UserKey] == "" then NoUser
    else match decode(items[UserKey])
      case Some(u) => Parsed(u)
      case None => Corrupt
  }

  /** What the store keeps after clearTokens: every other key untouched. */
  function Cleared(items: map<string, string>): (r: map<string, string>)
    ensures TokenKey !in r && RefreshTokenKey !in r && UserKey !in r
    ensures forall k :: k in items && k != TokenKey && k != RefreshTokenKey && k != UserKey ==> k in r && r[k] == items[k]
    ensures forall k :: k in r ==> k in items
  {
    items - {TokenKey, RefreshTokenKey, UserKey}
  }

  /** Writing a user and reading it back gives that user, whenever the JSON
      conversion itself round-trips and writes a non-empty text. */
  lemma UserRoundTrip(items: map<string, string>, encode: User -> string, decode: string -> Option<User>, u: User)
    requires encode(u) != "" && decode(encode(u)) == Some(u)
    ensures ReadUser(items[UserKey := encode(u)], decode) == Parsed(u)
  {
  }

  /** After clearing, no user can be read. */
  lemma ClearedHasNoUser(items: map<string, string>, decode: string -> Option<User>)
    ensures ReadUser(Cleared(items), decode) == NoUser
  {
  }

  /** Clearing twice is clearing once. */
  lemma ClearedIdempotent(items: map<string, string>)
    ensures Cleared(Cleared(items)) == Cleared(items)
  {
  }

  class Store {
    /** The storage area: key to stored text. */
    var items: map<string, string>
    const encode: User -> string
    const decode: string -> Option<User>

    constructor (initial: map<string, string>, encode: User -> string, decode: string -> Option<User>)
      ensures items == initial && this.encode == encode && this.decode == decode
    {
      items := initial;
      this.encode := encode;
      this.decode := decode;
    }

    method SetTokens(accessToken: string, refreshToken: string)
      modifies this
      ensures items == old(items)[TokenKey := accessToken][RefreshTokenKey := refreshToken]
    {
      items := items[TokenKey := accessToken];
      items := items[RefreshTokenKey := refreshToken];
    }

    function GetAccessToken(): Option<string>
      reads this
    {
      if TokenKey in items then Some(items[TokenKey]) else None
    }

    function GetRefreshToken(): Option<string>
      reads this
    {
      if RefreshTokenKey in items then Some(items[RefreshTokenKey]) else None
    }

    method SetUser(u: User)
      modifies this
      ensures items == old(items)[UserKey := encode(u)]
    {
      items := items[UserKey := encode(u)];
    }

    function GetUser(): UserRead
      reads this
    {
      ReadUser(items, decode)
    }

    method ClearTokens()
      modifies this
      ensures items == Cleared(old(items))
      ensures GetAccessToken() == None && GetRefreshToken() == None && GetUser() == NoUser
    {
      items := Cleared(items);
    }
  }
}
