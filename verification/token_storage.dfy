/** The access-token helpers of src/utils/auth.ts over the two browser
    stores: `localStorage` (kept across sessions, "remember me") and
    `sessionStorage`. Each holds at most one `access_token` string. */
module TokenStorage {
  import opened Wrappers
  import JsText

  /** `getItem('access_token')` of each store: `None` is `null`. */
  datatype TokenStores = TokenStores(local: Option<string>, session: Option<string>)

  /** Both stores without a token. */
  const NoTokens: TokenStores := TokenStores(None, None)

  /** The message `getAccessToken` throws with. */
  const NoTokenMessage: string := "No access token found. Please log in."

  /** `isAuthenticated()`: either store holds a non-empty token. */
  predicate IsAuthenticated(s: TokenStores)
    ensures IsAuthenticated(s) <==> exists t :: t != "" && (s.local == Some(t) || s.session == Some(t))
  {
    JsText.Truthy(s.local) || JsText.Truthy(s.session)
  }

  /** `getAccessToken()`: the local token when non-empty, else the session
      token when non-empty; otherwise it throws. */
  function GetAccessToken(s: TokenStores): (r: Result<string, string>)
    ensures r.Success? <==> IsAuthenticated(s)
    ensures r.Success? ==> r.value != ""
    ensures r.Success? ==> Some(r.value) == s.local || Some(r.value) == s.session
    ensures JsText.Truthy(s.local) ==> r == Success(s.local.value)
    ensures r.Failure? ==> r.error == NoTokenMessage
  {
    var token := JsText.Or(s.local, s.session);
    if JsText.Truthy(token) then Success(token.value) else Failure(NoTokenMessage)
  }

  /** `setAccessToken(token, rememberMe)`; `rememberMe` defaults to false. */
  function SetAccessToken(s: TokenStores, token: string, rememberMe: bool): (r: TokenStores)
    ensures rememberMe ==> r.local == Some(token) && r.session == s.session
    ensures !rememberMe ==> r.session == Some(token) && r.local == s.local
  {
    if rememberMe then s.(local := Some(token)) else s.(session := Some(token))
  }

  /** `removeAccessToken()`: clears both stores. */
  function RemoveAccessToken(s: TokenStores): (r: TokenStores)
    ensures r.local.None? && r.session.None?
    ensures !IsAuthenticated(r)
    ensures GetAccessToken(r) == Failure(NoTokenMessage)
  {
    NoTokens
  }

  /** A remembered non-empty token is what `getAccessToken` returns next. */
  lemma SetRememberedThenGet(s: TokenStores, token: string)
    requires token != ""
    ensures GetAccessToken(SetAccessToken(s, token, true)) == Success(token)
    ensures IsAuthenticated(SetAccessToken(s, token, true))
  {
  }

  /** A session token is returned next only when no non-empty local token
      exists: an older remembered token still wins. */
  lemma SetSessionThenGet(s: TokenStores, token: string)
    requires token != ""
    ensures JsText.Truthy(s.local) ==> GetAccessToken(SetAccessToken(s, token, false)) == Success(s.local.value)
    ensures !JsText.Truthy(s.local) ==> GetAccessToken(SetAccessToken(s, token, false)) == Success(token)
  {
  }
}
