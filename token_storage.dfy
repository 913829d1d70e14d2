/**
 * The token and user storage of client/src/lib/auth.ts over `localStorage`, a string-to-string
 * map. Outside a browser (`typeof window === 'undefined'`) the getters answer nothing and the
 * setters do nothing. `JSON.parse` and `atob` are passed in.
 */
module TokenStorage {
  import opened Wrappers
  import opened Text
  import AuthGates

  const TOKEN_KEY: string := "auth_token"
  const REFRESH_TOKEN_KEY: string := "refresh_token"
  const USER_KEY: string := "user"

  type Store = map<string, string>

  /** `getAuthToken`. */
  function TokenOf(hasWindow: bool, items: Store): (r: Option<string>)
    ensures r.Some? <==> hasWindow && TOKEN_KEY in items
    ensures r.Some? ==> r.value == items[TOKEN_KEY]
  {
    if hasWindow && TOKEN_KEY in items then Some(items[TOKEN_KEY]) else None
  }

  /** `getAuthHeaders().Authorization`: `Bearer <token>` for a non-empty token, else empty. */
  function AuthHeaderOf(hasWindow: bool, items: Store): (h: string)
    ensures h == "" <==> !Truthy(TokenOf(hasWindow, items))
    ensures h != "" ==> StartsWith(h, "Bearer ") && h[7..] == items[TOKEN_KEY]
  {
    var t := TokenOf(hasWindow, items);
    if Truthy(t) then "Bearer " + t.value else ""
  }

  /** `isAuthenticated`: a non-empty stored token. */
  function SignedInOf(hasWindow: bool, items: Store): (b: bool)
    ensures b <==> hasWindow && TOKEN_KEY in items && items[TOKEN_KEY] != ""
    ensures b <==> AuthHeaderOf(hasWindow, items) != ""
  {
    Truthy(TokenOf(hasWindow, items))
  }

  /** `removeItem` of each key in `keys`. */
  function Without(items: Store, keys: set<string>): (r: Store)
    ensures forall k :: k in r <==> k in items && k !in keys
    ensures forall k :: k in r ==> r[k] == items[k]
  {
    map k | k in items && k !in keys :: items[k]
  }

  /** The stored user record and how `setCurrentUser` serialises it. */
  datatype StoredUser = StoredUser(id: string, email: string)

  function UserJson(u: StoredUser): string {
    "{\"id\":" + JsonQuote(u.id) + ",\"email\":" + JsonQuote(u.email) + "}"
  }

  /** `getCurrentUser`: nothing without a window or a truthy stored value, else what `JSON.parse` gives (it may throw). */
  datatype UserRead = NoUser | ParsedUser(user: StoredUser) | ParseThrows

  function CurrentUserOf(hasWindow: bool, items: Store, parse: string -> Option<StoredUser>): (r: UserRead)
    ensures r.NoUser? <==> !hasWindow || USER_KEY !in items || items[USER_KEY] == ""
    ensures r.ParsedUser? ==> parse(items[USER_KEY]) == Some(r.user)
  {
    if !hasWindow || USER_KEY !in items || items[USER_KEY] == "" then NoUser
    else match parse(items[USER_KEY])
      case None => ParseThrows
      case Some(u) => ParsedUser(u)
  }

  /** The browser's storage as the module sees it. */
  class AuthStorage {
    const hasWindow: bool
    var items: Store

    constructor(hasWindow: bool, items: Store)
      ensures this.hasWindow == hasWindow && this.items == items
    {
      this.hasWindow := hasWindow;
      this.items := items;
    }

    function GetAuthToken(): Option<string>
      reads this
    {
      TokenOf(hasWindow, items)
    }

    method SetAuthToken(token: string)
      modifies this
      ensures items == if hasWindow then old(items)[TOKEN_KEY := token] else old(items)
      ensures hasWindow ==> GetAuthToken() == Some(token)
    {
      if hasWindow {
        items := items[TOKEN_KEY := token];
      }
    }

    /** `removeAuthToken`: both tokens go, the stored user stays. */
    method RemoveAuthToken()
      modifies this
      ensures items == if hasWindow then Without(old(items), {TOKEN_KEY, REFRESH_TOKEN_KEY}) else old(items)
    {
      if hasWindow {
        items := Without(items, {TOKEN_KEY, REFRESH_TOKEN_KEY});
      }
    }

    method SetCurrentUser(user: StoredUser)
      modifies this
      ensures items == if hasWindow then old(items)[USER_KEY := UserJson(user)] else old(items)
    {
      if hasWindow {
        items := items[USER_KEY := UserJson(user)];
      }
    }

    /** `clearAuthData`: exactly the two tokens and the user go. */
    method ClearAuthData()
      modifies this
      ensures items == if hasWindow then Without(old(items), {TOKEN_KEY, REFRESH_TOKEN_KEY, USER_KEY}) else old(items)
    {
      if hasWindow {
        items := Without(items, {TOKEN_KEY, REFRESH_TOKEN_KEY, USER_KEY});
      }
    }
  }

  /** Storing a token and reading it back gives the token; elsewhere nothing is stored. */
  lemma SetThenGet(hasWindow: bool, items: Store, token: string)
    ensures TokenOf(hasWindow, if hasWindow then items[TOKEN_KEY := token] else items)
            == if hasWindow then Some(token) else None
  {
  }

  /** `removeAuthToken` signs the user out but keeps the stored user; `clearAuthData` removes that too. */
  lemma RemoveKeepsUser(items: Store)
    ensures !SignedInOf(true, Without(items, {TOKEN_KEY, REFRESH_TOKEN_KEY}))
    ensures USER_KEY in items ==> USER_KEY in Without(items, {TOKEN_KEY, REFRESH_TOKEN_KEY})
    ensures USER_KEY !in Without(items, {TOKEN_KEY, REFRESH_TOKEN_KEY, USER_KEY})
    ensures forall k :: k in items && k != TOKEN_KEY && k != REFRESH_TOKEN_KEY && k != USER_KEY ==>
              k in Without(items, {TOKEN_KEY, REFRESH_TOKEN_KEY, USER_KEY})
  {
  }

  /**
   * The header the client sends is one the server's `authenticate` reads the same token from,
   * as long as the token has no space.
   */
  lemma HeaderReadsBack(items: Store, token: string)
    requires token != "" && ' ' !in token
    ensures AuthGates.BearerToken(Some(AuthHeaderOf(true, items[TOKEN_KEY := token]))) == Success(token)
  {
    AuthGates.BearerTokenOf(token);
  }

  /** A user stored by `setCurrentUser` reads back through a `JSON.parse` that inverts the serialisation. */
  lemma UserRoundTrip(items: Store, user: StoredUser, parse: string -> Option<StoredUser>)
    requires parse(UserJson(user)) == Some(user)
    ensures CurrentUserOf(true, items[USER_KEY := UserJson(user)], parse) == ParsedUser(user)
  {
    assert |UserJson(user)| > 0;
  }

  /** The payload of a JWT as `isTokenExpired` reads it. */
  datatype TokenPayload = TokenPayload(exp: Option<int>)

  /**
   * `isTokenExpired(token)` at time `now` (milliseconds): the second dot-separated part is
   * decoded by `decode` (`None` when `atob` or `JSON.parse` throws, which counts as expired). A
   * token without a dot has no such part, and `atob` of `undefined` throws. A payload without
   * `exp` compares against `NaN` and is never expired.
   */
  function IsTokenExpired(token: string, now: int, decode: string -> Option<TokenPayload>): (expired: bool)
    ensures '.' !in token ==> expired
    ensures '.' in token && decode(Split(token, '.')[1]).None? ==> expired
    ensures '.' in token && decode(Split(token, '.')[1]) == Some(TokenPayload(None)) ==> !expired
    ensures '.' in token && decode(Split(token, '.')[1]).Some? && decode(Split(token, '.')[1]).value.exp.Some? ==>
              (expired <==> now >= decode(Split(token, '.')[1]).value.exp.value * 1000)
  {
    var parts := Split(token, '.');
    if |parts| < 2 then true
    else match decode(parts[1])
      case None => true
      case Some(payload) =>
        if payload.exp.None? then false else now >= payload.exp.value * 1000
  }
}
