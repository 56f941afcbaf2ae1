/** The decisions of the authentication context in
    src/contexts/AuthContext.tsx: how `login` and `register` turn an HTTP
    response into a user or an error, when a token is stored, what `logout`
    clears, and the context's own `getAccessToken`. The request itself is not
    modelled; its response is an input value. */
module AuthContext {
  import opened Wrappers
  import JsText
  import TokenStorage

  /** The signed-in user the context holds and caches under the `user` key. */
  datatype User = User(id: string, email: string, name: string)

  /** The fields of a parsed response body the context reads; `None` is a
      missing (or `null`) field. */
  datatype ResponseBody = ResponseBody(
    id: Option<string>,
    userId: Option<string>,
    email: Option<string>,
    userName: Option<string>,
    name: Option<string>,
    accessToken: Option<string>,
    detail: Option<string>)

  /** An HTTP response: its status, and its body when `response.json()` succeeds. */
  datatype HttpResponse = HttpResponse(status: int, body: Option<ResponseBody>)

  /** `response.ok`: a 2xx status. */
  predicate IsOk(resp: HttpResponse)
  {
    200 <= resp.status <= 299
  }

  /** An error thrown by `login` or `register`: one with a message the
      context chose, or the parser's own error escaping unwrapped. */
  datatype AuthError = Message(text: string) | JsonSyntaxError

  /** The browser state the context reads and writes: the user in React
      state, the user cached in `localStorage`, and the two token stores. */
  datatype Session = Session(user: Option<User>, storedUser: Option<User>, tokens: TokenStorage.TokenStores)

  /** The outcome of an attempt: the session afterwards, and the error if one was thrown. */
  datatype Attempt = Attempt(session: Session, error: Option<AuthError>)

  const InvalidResponseMessage: string := "Invalid response from server"
  const InvalidCredentialsMessage: string := "Invalid email or password. Please try again."
  const InvalidRequestMessage: string := "Invalid request. Please check your input and try again."
  const ServerErrorMessage: string := "Server error. Please try again later."
  const LoginFailedMessage: string := "Login failed. Please try again."
  const InvalidUserDataMessage: string := "Invalid user data received from server"
  const RegistrationFailedMessage: string := "Registration failed"
  const NoUserIdMessage: string := "No user ID returned from backend"

  /** The message a non-OK login response is reported with. */
  function LoginFailure(status: int, detail: Option<string>): (msg: string)
    ensures msg != ""
    ensures status == 401 ==> msg == InvalidCredentialsMessage
    ensures status == 400 ==> msg == InvalidRequestMessage
    ensures status >= 500 ==> msg == ServerErrorMessage
    ensures status != 401 && status != 400 && status < 500 ==>
      (JsText.Truthy(detail) ==> msg == detail.value) && (!JsText.Truthy(detail) ==> msg == LoginFailedMessage)
  {
    if status == 401 then InvalidCredentialsMessage
    else if status == 400 then InvalidRequestMessage
    else if status >= 500 then ServerErrorMessage
    else JsText.OrElse(detail, LoginFailedMessage)
  }

  /** The user `login` derives from a successful response, or `None` when
      neither `id` nor `user_id` is present and non-empty. */
  function LoginUser(body: ResponseBody, email: string): (r: Option<User>)
    ensures r.Some? <==> JsText.Truthy(body.id) || JsText.Truthy(body.userId)
    ensures r.Some? ==> r.value.id != ""
    ensures r.Some? ==> Some(r.value.id) == body.id || Some(r.value.id) == body.userId
    ensures r.Some? && JsText.Truthy(body.id) ==> r.value.id == body.id.value
    ensures r.Some? ==> r.value.email == JsText.OrElse(body.email, email)
    ensures r.Some? && JsText.Truthy(body.userName) ==> r.value.name == body.userName.value
    ensures r.Some? && !JsText.Truthy(body.userName) && JsText.Truthy(body.name) ==> r.value.name == body.name.value
    ensures r.Some? && !JsText.Truthy(body.userName) && !JsText.Truthy(body.name) ==>
      r.value.name <= email && '@' !in r.value.name && (|r.value.name| < |email| ==> email[|r.value.name|] == '@')
  {
    var id := JsText.Or(body.id, body.userId);
    if !JsText.Truthy(id) then None
    else Some(User(
      id.value,
      JsText.OrElse(body.email, email),
      JsText.OrElse(JsText.Or(body.userName, body.name), JsText.BeforeFirstAt(email))))
  }

  /** The user `register` derives: as for login, except that the name falls
      back to the typed name and never to the e-mail. */
  function RegisterUser(body: ResponseBody, email: string, name: string): (r: Option<User>)
    ensures r.Some? <==> JsText.Truthy(body.id) || JsText.Truthy(body.userId)
    ensures r.Some? ==> r.value.id != ""
    ensures r.Some? ==> r.value.name == JsText.OrElse(body.userName, name)
    ensures r.Some? ==> r.value.email == JsText.OrElse(body.email, email)
  {
    var id := JsText.Or(body.id, body.userId);
    if !JsText.Truthy(id) then None
    else Some(User(id.value, JsText.OrElse(body.email, email), JsText.OrElse(body.userName, name)))
  }

  /** What a successful attempt stores: the token into `localStorage` when
      the response carries one, then the user in state and in the cache. */
  function SignIn(s: Session, user: User, accessToken: Option<string>): (r: Session)
    ensures r.user == Some(user) && r.storedUser == Some(user)
    ensures JsText.Truthy(accessToken) ==> r.tokens == TokenStorage.SetAccessToken(s.tokens, accessToken.value, true)
    ensures !JsText.Truthy(accessToken) ==> r.tokens == s.tokens
  {
    var tokens := if JsText.Truthy(accessToken) then TokenStorage.SetAccessToken(s.tokens, accessToken.value, true) else s.tokens;
    Session(Some(user), Some(user), tokens)
  }

  /** `login(email, password)` given the server's response. */
  function Login(s: Session, email: string, resp: HttpResponse): (r: Attempt)
    // a thrown error leaves everything as it was
    ensures r.error.Some? ==> r.session == s
    // an unparseable body wins over every status
    ensures resp.body.None? ==> r.error == Some(Message(InvalidResponseMessage))
    ensures resp.body.Some? && !IsOk(resp) ==>
      && r.error.Some? && r.error.value.Message?
      && (resp.status == 401 ==> r.error.value.text == InvalidCredentialsMessage)
      && (resp.status == 400 ==> r.error.value.text == InvalidRequestMessage)
      && (resp.status >= 500 ==> r.error.value.text == ServerErrorMessage)
      && (resp.status != 401 && resp.status != 400 && resp.status < 500 ==>
            r.error.value.text == JsText.OrElse(resp.body.value.detail, LoginFailedMessage))
    ensures resp.body.Some? && IsOk(resp) ==>
      (r.error.None? <==> JsText.Truthy(resp.body.value.id) || JsText.Truthy(resp.body.value.userId))
    ensures resp.body.Some? && IsOk(resp) && r.error.Some? ==> r.error == Some(Message(InvalidUserDataMessage))
    ensures r.error.None? ==>
      && resp.body.Some? && IsOk(resp)
      && r.session.user == LoginUser(resp.body.value, email)
      && r.session.storedUser == r.session.user
      && r.session.tokens.session == s.tokens.session
      && (JsText.Truthy(resp.body.value.accessToken) ==> r.session.tokens.local == resp.body.value.accessToken)
      && (!JsText.Truthy(resp.body.value.accessToken) ==> r.session.tokens == s.tokens)
  {
    match resp.body
    case None => Attempt(s, Some(Message(InvalidResponseMessage)))
    case Some(body) =>
      if !IsOk(resp) then Attempt(s, Some(Message(LoginFailure(resp.status, body.detail))))
      else match LoginUser(body, email)
        case None => Attempt(s, Some(Message(InvalidUserDataMessage)))
        case Some(user) => Attempt(SignIn(s, user, body.accessToken), None)
  }

  /** `register(email, password, name)` given the server's response. */
  function Register(s: Session, email: string, name: string, resp: HttpResponse): (r: Attempt)
    ensures r.error.Some? ==> r.session == s
    // the body is parsed without a guard on either path
    ensures resp.body.None? ==> r.error == Some(JsonSyntaxError)
    ensures resp.body.Some? && !IsOk(resp) ==>
      r.error == Some(Message(JsText.OrElse(resp.body.value.detail, RegistrationFailedMessage)))
    ensures resp.body.Some? && IsOk(resp) ==>
      (r.error.None? <==> JsText.Truthy(resp.body.value.id) || JsText.Truthy(resp.body.value.userId))
    ensures resp.body.Some? && IsOk(resp) && r.error.Some? ==> r.error == Some(Message(NoUserIdMessage))
    ensures r.error.None? ==>
      && resp.body.Some? && IsOk(resp)
      && r.session.user == RegisterUser(resp.body.value, email, name)
      && r.session.storedUser == r.session.user
      && r.session.tokens.session == s.tokens.session
      && (JsText.Truthy(resp.body.value.accessToken) ==> r.session.tokens.local == resp.body.value.accessToken)
      && (!JsText.Truthy(resp.body.value.accessToken) ==> r.session.tokens == s.tokens)
  {
    match resp.body
    case None => Attempt(s, Some(JsonSyntaxError))
    case Some(body) =>
      if !IsOk(resp) then Attempt(s, Some(Message(JsText.OrElse(body.detail, RegistrationFailedMessage))))
      else match RegisterUser(body, email, name)
        case None => Attempt(s, Some(Message(NoUserIdMessage)))
        case Some(user) => Attempt(SignIn(s, user, body.accessToken), None)
  }

  /** `logout()`: forget the user in state and in the cache, and clear both token stores. */
  function Logout(s: Session): (r: Session)
    ensures r.user.None? && r.storedUser.None?
    ensures !TokenStorage.IsAuthenticated(r.tokens)
    ensures ContextAccessToken(r) == None
  {
    Session(None, None, TokenStorage.RemoveAccessToken(s.tokens))
  }

  /** The context's `getAccessToken()`: `local || session`, which may be
      `null` or an empty session token. */
  function ContextAccessToken(s: Session): (r: Option<string>)
    ensures JsText.Truthy(r) <==> TokenStorage.IsAuthenticated(s.tokens)
    ensures JsText.Truthy(r) ==> TokenStorage.GetAccessToken(s.tokens) == Success(r.value)
    ensures JsText.Truthy(s.tokens.local) ==> r == s.tokens.local
    ensures !JsText.Truthy(s.tokens.local) ==> r == s.tokens.session
  {
    JsText.Or(s.tokens.local, s.tokens.session)
  }

  /** The provider's mount effect: restore the cached user, if any. */
  function Restore(s: Session): (r: Session)
    ensures s.storedUser.Some? ==> r.user == s.storedUser
    ensures s.storedUser.None? ==> r.user == s.user
    ensures r.storedUser == s.storedUser && r.tokens == s.tokens
  {
    if s.storedUser.Some? then s.(user := s.storedUser) else s
  }

  /** A successful login survives a reload: a fresh provider (no user in
      state) restores the same user, and a carried token is then current. */
  lemma LoginSurvivesReload(s: Session, email: string, resp: HttpResponse)
    requires Login(s, email, resp).error.None?
    ensures var after := Login(s, email, resp).session;
            && Restore(after.(user := None)).user == after.user
            && after.user.Some?
            && (JsText.Truthy(resp.body.value.accessToken) ==>
                  ContextAccessToken(after) == resp.body.value.accessToken)
  {
  }

  /** After logout a reload restores nobody and no token is available. */
  lemma LogoutSurvivesReload(s: Session)
    ensures Restore(Logout(s).(user := None)).user.None?
    ensures TokenStorage.GetAccessToken(Logout(s).tokens).Failure?
  {
  }

  /** Login and registration agree on id and e-mail; they differ only in
      the name fallback, where login falls back to `name` and then to the
      part of the e-mail before '@', and registration to the typed name. */
  lemma LoginRegisterAgree(body: ResponseBody, email: string, name: string)
    ensures LoginUser(body, email).Some? <==> RegisterUser(body, email, name).Some?
    ensures LoginUser(body, email).Some? ==>
      && LoginUser(body, email).value.id == RegisterUser(body, email, name).value.id
      && LoginUser(body, email).value.email == RegisterUser(body, email, name).value.email
      && (JsText.Truthy(body.userName) ==> LoginUser(body, email).value.name == RegisterUser(body, email, name).value.name)
  {
  }
}
