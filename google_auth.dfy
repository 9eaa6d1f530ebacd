/**
 * The Google sign-in handshake of the main process (src/index.js), with every
 * network call replaced by the outcome it produced.
 *
 * The handshake runs once a redirect to the local redirect target has been
 * intercepted: extract the `code` query parameter, exchange it for tokens,
 * fetch the user's profile, register the user with the backend (a 409
 * "already registered" is accepted), then log in with the same e-mail and a
 * password derived from it.
 */
module GoogleAuth {
  import opened Wrappers

  /** Suffix appended to the Google e-mail to form the backend password. */
  const PasswordSuffix: string := "_googleAuth!"

  /** Prefix of the redirect target registered with Google. */
  const RedirectPrefix: string := "http://localhost"

  /** Alert shown when the backend answers the registration with status 500. */
  const TryAgainMessage: string := "Erro ao realizar login com o Google. Tente novamente."

  /** Alert shown for every other fatal registration error. */
  const UnexpectedMessage: string := "Erro inesperado ao registrar com o Google."

  /** The HTTP status by which the backend says the account already exists. */
  const Conflict: int := 409

  /** The HTTP status that gets the "try again" alert. */
  const ServerError: int := 500

  // ---------------------------------------------------------------------------
  // Derived credential

  /** The password under which a Google account is registered and logged in. */
  function FakePassword(email: string): (password: string)
    ensures |password| == |email| + |PasswordSuffix|
    ensures password[..|email|] == email && password[|email|..] == PasswordSuffix
  {
    email + PasswordSuffix
  }

  /** Inverse of FakePassword: the e-mail a derived password was made from, if it is one. */
  function EmailOf(password: string): (email: Option<string>)
  {
    if |PasswordSuffix| <= |password| && password[|password| - |PasswordSuffix|..] == PasswordSuffix
    then Some(password[..|password| - |PasswordSuffix|])
    else None
  }

  /** The e-mail can be recovered from its derived password, so distinct e-mails give distinct passwords. */
  lemma FakePasswordRoundTrip(email: string)
    ensures EmailOf(FakePassword(email)) == Some(email)
  {
  }

  /** Every password EmailOf accepts is the derived password of the e-mail it yields. */
  lemma EmailOfRoundTrip(password: string)
    requires EmailOf(password).Some?
    ensures FakePassword(EmailOf(password).value) == password
  {
  }

  /**
   * Same e-mail, same password; different e-mails, different passwords: the
   * backend account created on the first Google sign-in can be logged into on
   * every later one.
   */
  lemma FakePasswordInjective(a: string, b: string)
    ensures FakePassword(a) == FakePassword(b) <==> a == b
  {
    if FakePassword(a) == FakePassword(b) {
      FakePasswordRoundTrip(a);
      FakePasswordRoundTrip(b);
    }
  }

  lemma FakePasswordExample()
    ensures FakePassword("ana@x.com") == "ana@x.com_googleAuth!"
  {
  }

  // ---------------------------------------------------------------------------
  // Redirect interception

  /** `url.startsWith('http://localhost')`: only such redirects are prevented and handled. */
  predicate IsLocalRedirect(url: string)
    ensures IsLocalRedirect(url) <==>
      |RedirectPrefix| <= |url| && forall i :: 0 <= i < |RedirectPrefix| ==> url[i] == RedirectPrefix[i]
  {
    RedirectPrefix <= url
  }

  lemma LocalRedirectExamples()
    ensures IsLocalRedirect("http://localhost/?code=abc123")
    ensures !IsLocalRedirect("https://accounts.google.com/signin")
  {
    assert "https://accounts.google.com/signin"[4] != RedirectPrefix[4];
  }

  // ---------------------------------------------------------------------------
  // Network outcomes

  /**
   * What an awaited axios call gives: the response body, or the error it
   * throws, with `err.response?.status` and `err.message`.
   */
  datatype Response<T> = Ok(body: T) | Err(status: Option<int>, message: string)

  /** Body of the token endpoint's answer; only the access token is used afterwards. */
  datatype TokenBody = TokenBody(accessToken: string, idToken: string)

  /** Body of the userinfo endpoint's answer. */
  datatype Profile = Profile(id: string, name: string, email: string)

  /** Body of the backend's login answer. */
  datatype LoginBody = LoginBody(token: string)

  /**
   * Result of `new URL(url).searchParams.get('code')`: the URL does not parse
   * (the constructor throws), or the parameter, which is `null` when absent.
   */
  datatype CodeParam = Unparsable | Code(value: Option<string>)

  /** The outbound HTTP requests of the handshake, with the payload each carries. */
  datatype Request =
    | TokenRequest(code: Option<string>)
    | UserInfoRequest(bearer: string)
    | RegisterRequest(name: string, email: string, password: string, googleId: string)
    | LoginRequest(email: string, password: string)

  /** What the handler's outer `catch` receives. */
  datatype Fault =
    | BadRedirectUrl               // `new URL(url)` threw
    | RequestFailed(message: string)  // an axios call threw
    | NoLoginWindow                // `loginWindow.webContents` on a null or destroyed window threw

  /** How the network part of the handshake ends. */
  datatype Outcome =
    | SignedIn(token: string)      // the backend issued a session token
    | Refused(message: string)     // registration failed with a status other than 409
    | Threw(fault: Fault)          // an exception reached the outer catch

  datatype Attempt = Attempt(requests: seq<Request>, outcome: Outcome)

  /** The alert chosen for a fatal registration error (src/index.js:199-201). */
  function RegisterErrorMessage(status: Option<int>): (message: string)
  {
    if status == Some(ServerError) then TryAgainMessage else UnexpectedMessage
  }

  /** The registration answer lets the handshake go on to the login call (`status !== 409` is the fatal test). */
  predicate Registered(registerRes: Response<()>)
  {
    registerRes.Ok? || registerRes.status == Some(Conflict)
  }

  /**
   * The requests the handshake makes and how it ends, given what each call
   * answers. Each request is made only if the previous one succeeded, and
   * carries what the previous answer gave.
   */
  function Pipeline(code: CodeParam, tokenRes: Response<TokenBody>, userRes: Response<Profile>,
                    registerRes: Response<()>, loginRes: Response<LoginBody>): (a: Attempt)
    ensures |a.requests| <= 4
    // the code is forwarded as extracted, also when it is missing
    ensures code.Unparsable? <==> a.requests == []
    ensures code.Unparsable? ==> a.outcome == Threw(BadRedirectUrl)
    ensures code.Code? ==> a.requests[0] == TokenRequest(code.value)
    // the profile is fetched with the access token from the token endpoint
    ensures |a.requests| >= 2 <==> code.Code? && tokenRes.Ok?
    ensures |a.requests| >= 2 ==> a.requests[1] == UserInfoRequest(tokenRes.body.accessToken)
    // registration uses the profile and the derived password
    ensures |a.requests| >= 3 <==> code.Code? && tokenRes.Ok? && userRes.Ok?
    ensures |a.requests| >= 3 ==>
      var p := userRes.body;
      a.requests[2] == RegisterRequest(p.name, p.email, FakePassword(p.email), p.id)
    // login is called exactly when registration succeeded or reported a conflict
    ensures |a.requests| == 4 <==> code.Code? && tokenRes.Ok? && userRes.Ok? && Registered(registerRes)
    ensures |a.requests| == 4 ==>
      a.requests[3] == LoginRequest(a.requests[2].email, a.requests[2].password)
    // the three ways it can end
    ensures a.outcome.SignedIn? <==> |a.requests| == 4 && loginRes.Ok?
    ensures a.outcome.SignedIn? ==> a.outcome.token == loginRes.body.token
    ensures a.outcome.Refused? <==> |a.requests| == 3 && !Registered(registerRes)
    ensures a.outcome.Refused? ==> a.outcome.message == RegisterErrorMessage(registerRes.status)
    // a failed call is caught with that call's own error message
    ensures a.outcome.Threw? && code.Code? ==> a.outcome.fault.RequestFailed?
    ensures a.outcome.Threw? && |a.requests| == 1 ==> a.outcome.fault == RequestFailed(tokenRes.message)
    ensures a.outcome.Threw? && |a.requests| == 2 ==> a.outcome.fault == RequestFailed(userRes.message)
    ensures a.outcome.Threw? && |a.requests| == 4 ==> a.outcome.fault == RequestFailed(loginRes.message)
  {
    match code
    case Unparsable => Attempt([], Threw(BadRedirectUrl))
    case Code(c) =>
      var exchange := [TokenRequest(c)];
      match tokenRes
      case Err(_, m) => Attempt(exchange, Threw(RequestFailed(m)))
      case Ok(tokens) =>
        var fetch := exchange + [UserInfoRequest(tokens.accessToken)];
        match userRes
        case Err(_, m) => Attempt(fetch, Threw(RequestFailed(m)))
        case Ok(p) =>
          var password := FakePassword(p.email);
          var register := fetch + [RegisterRequest(p.name, p.email, password, p.id)];
          if !Registered(registerRes) then
            Attempt(register, Refused(RegisterErrorMessage(registerRes.status)))
          else
            var login := register + [LoginRequest(p.email, password)];
            match loginRes
            case Err(_, m) => Attempt(login, Threw(RequestFailed(m)))
            case Ok(body) => Attempt(login, SignedIn(body.token))
  }

  /** A 409 from the registration call is handled exactly like a successful registration. */
  lemma ConflictIsRegistration(code: CodeParam, tokenRes: Response<TokenBody>, userRes: Response<Profile>,
                               message: string, loginRes: Response<LoginBody>)
    ensures Pipeline(code, tokenRes, userRes, Err(Some(Conflict), message), loginRes)
         == Pipeline(code, tokenRes, userRes, Ok(()), loginRes)
  {
  }

  /**
   * Any other registration error ends the handshake with one of the two
   * alerts, and the login endpoint is never called.
   */
  lemma FatalRegistrationSkipsLogin(tokens: TokenBody, p: Profile, status: Option<int>, message: string,
                                    loginRes: Response<LoginBody>, c: Option<string>)
    requires status != Some(Conflict)
    ensures var a := Pipeline(Code(c), Ok(tokens), Ok(p), Err(status, message), loginRes);
      && a.outcome == Refused(if status == Some(ServerError) then TryAgainMessage else UnexpectedMessage)
      && forall r | r in a.requests :: !r.LoginRequest?
  {
  }

  /** The successful handshake of a returning user: Google says who it is, the backend says 409, login succeeds. */
  lemma ReturningUserScenario()
    ensures Pipeline(Code(Some("abc123")), Ok(TokenBody("AT1", "IT1")), Ok(Profile("g1", "Ana", "ana@x.com")),
                     Err(Some(409), "Request failed with status code 409"), Ok(LoginBody("ST1")))
         == Attempt([TokenRequest(Some("abc123")), UserInfoRequest("AT1"),
                     RegisterRequest("Ana", "ana@x.com", "ana@x.com_googleAuth!", "g1"),
                     LoginRequest("ana@x.com", "ana@x.com_googleAuth!")],
                    SignedIn("ST1"))
  {
    FakePasswordExample();
  }

  /**
   * A redirect without a `code` parameter is not caught before the network:
   * the token endpoint is still called, with a null code.
   */
  lemma MissingCodeStillExchanged(tokenRes: Response<TokenBody>, userRes: Response<Profile>,
                                  registerRes: Response<()>, loginRes: Response<LoginBody>)
    ensures Pipeline(Code(None), tokenRes, userRes, registerRes, loginRes).requests[0] == TokenRequest(None)
  {
  }
}
