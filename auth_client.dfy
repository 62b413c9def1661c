/**
 * The front end's credential store (`authService` in services/auth.ts):
 * saving, clearing and reading the access/refresh pair in `localStorage`,
 * and logout, which clears the pair whatever the server answers.
 */
module AuthClient {
  import opened Common
  import opened Storage

  /** The body of a successful login or refresh response. */
  datatype AuthResponse = AuthResponse(accessToken: string, refreshToken: string, expiresIn: int, tokenType: string)

  /** How a call to the server through the intercepted client ended. */
  datatype CallOutcome = Resolved | Rejected(message: string)

  /** The store after `saveTokens`: both keys written, nothing else touched. */
  function Saved(items: map<string, string>, tokens: AuthResponse): (r: map<string, string>)
    ensures ACCESS_KEY in r && r[ACCESS_KEY] == tokens.accessToken
    ensures REFRESH_KEY in r && r[REFRESH_KEY] == tokens.refreshToken
    ensures r.Keys == items.Keys + {ACCESS_KEY, REFRESH_KEY}
    ensures forall k :: k in items && k != ACCESS_KEY && k != REFRESH_KEY ==> r[k] == items[k]
  {
    items[ACCESS_KEY := tokens.accessToken][REFRESH_KEY := tokens.refreshToken]
  }

  /** The store after `clearTokens`: both keys gone, nothing else touched. */
  function Cleared(items: map<string, string>): (r: map<string, string>)
    ensures ACCESS_KEY !in r && REFRESH_KEY !in r
    ensures r.Keys == items.Keys - {ACCESS_KEY, REFRESH_KEY}
    ensures forall k :: k in r ==> r[k] == items[k]
  {
    items - {ACCESS_KEY, REFRESH_KEY}
  }

  /** `getAccessToken`: the stored access token, if any. */
  function GetAccessToken(items: map<string, string>): Option<string> {
    if ACCESS_KEY in items then Some(items[ACCESS_KEY]) else None
  }

  /** `isAuthenticated`: `!!getAccessToken()`, so an empty token does not count. */
  function IsAuthenticated(items: map<string, string>): (r: bool)
    ensures r <==> ACCESS_KEY in items && items[ACCESS_KEY] != ""
  {
    match GetAccessToken(items)
    case None => false
    case Some(token) => token != ""
  }

  method SaveTokens(st: LocalStorage, tokens: AuthResponse)
    modifies st
    ensures st.items == Saved(old(st.items), tokens)
  {
    st.SetItem(ACCESS_KEY, tokens.accessToken);
    st.SetItem(REFRESH_KEY, tokens.refreshToken);
  }

  method ClearTokens(st: LocalStorage)
    modifies st
    ensures st.items == Cleared(old(st.items))
  {
    st.RemoveItem(ACCESS_KEY);
    st.RemoveItem(REFRESH_KEY);
  }

  /**
   * `logout`: the server call's outcome is given; the `finally` block clears
   * the pair on both paths and the call's rejection still propagates.
   */
  method Logout(st: LocalStorage, serverCall: CallOutcome) returns (r: CallOutcome)
    modifies st
    ensures st.items == Cleared(old(st.items))
    ensures r == serverCall
  {
    r := serverCall;
    ClearTokens(st);
  }

  /** Clearing twice is the same as clearing once. */
  lemma ClearIdempotent(items: map<string, string>)
    ensures Cleared(Cleared(items)) == Cleared(items)
  {
  }

  /** After saving, the session view is exactly "the saved access token is non-empty". */
  lemma SavedAuthenticated(items: map<string, string>, tokens: AuthResponse)
    ensures IsAuthenticated(Saved(items, tokens)) <==> tokens.accessToken != ""
    ensures GetAccessToken(Saved(items, tokens)) == Some(tokens.accessToken)
  {
  }

  /** After clearing, nobody is authenticated. */
  lemma ClearedUnauthenticated(items: map<string, string>)
    ensures !IsAuthenticated(Cleared(items))
    ensures GetAccessToken(Cleared(items)) == None
  {
  }

  /** The refresh token plays no part in `isAuthenticated`. */
  lemma AuthenticatedIgnoresRefresh(items: map<string, string>, refresh: string)
    ensures IsAuthenticated(items[REFRESH_KEY := refresh]) == IsAuthenticated(items)
    ensures IsAuthenticated(items - {REFRESH_KEY}) == IsAuthenticated(items)
  {
  }
}
