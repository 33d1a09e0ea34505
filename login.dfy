/** The login state machine (src/tg/login.rs): `login_with_phone`,
    `provide_verify_code` and `provide_password` move the login state, the
    two tokens and the signed-in user.

    The client's answers are parameters: `authorized` is the outcome of
    `is_authorized` (an error panics inside `is_logged_in`), and the answer to
    the code request, the sign-in or the password check is one more value.
    `written` is the outcome of the session-file write in `save_session`.
    Each method is proved equal to a value-level step function over `Auth`. */
module Login {
  import opened Types
  import opened Tg

  /** What `sign_in` answers. */
  datatype SignInAnswer =
    | SignedIn(user: UserInfo)
    | PasswordNeeded(passwordToken: PasswordToken)
    | InvalidCode
    | SignInFailed(error: Error)

  /** One login step: the value returned, the login fields afterwards, and
      what was appended to the log. */
  datatype LoginStep = LoginStep(result: Result<LoginState>, auth: Auth, events: seq<Event>)

  function Panic(a: Auth, reason: string): LoginStep {
    LoginStep(Err(Panicked(reason)), a, [])
  }

  /** The login fields once the session is known to be authorised. */
  function LoggedInAuth(a: Auth): Auth {
    a.(loginState := Some(LoggedIn))
  }

  // ---------------------------------------------------------------------
  // Step functions

  function LoginWithPhoneStep(a: Auth, phone: string, authorized: Result<bool>,
                              codeRequest: Result<LoginToken>, written: bool): LoginStep
  {
    match authorized
    case Err(_) => Panic(a, "is_authorized failed")
    case Ok(true) => LoginStep(Ok(LoggedIn), LoggedInAuth(a), [SessionSaved(written)])
    case Ok(false) =>
      var asked := [ClientCalled(RequestLoginCode(phone))];
      match codeRequest
      case Err(e) => LoginStep(Err(e), a, asked)
      case Ok(token) =>
        LoginStep(Ok(CodeRequired), a.(loginToken := Some(token), loginState := Some(CodeRequired)), asked)
  }

  function ProvideVerifyCodeStep(a: Auth, code: string, authorized: Result<bool>,
                                 answer: SignInAnswer, written: bool): LoginStep
  {
    match authorized
    case Err(_) => Panic(a, "is_authorized failed")
    case Ok(true) => LoginStep(Ok(LoggedIn), LoggedInAuth(a), [SessionSaved(written)])
    case Ok(false) =>
      if a.loginToken.None? then Panic(a, "no login token")
      else
        var asked := [ClientCalled(SignIn(a.loginToken.value, code))];
        match answer
        case PasswordNeeded(pt) =>
          LoginStep(Ok(PasswordRequired),
                    a.(loginState := Some(PasswordRequired), passwordToken := Some(pt), loginToken := None),
                    asked)
        case SignedIn(u) =>
          LoginStep(Ok(LoggedIn), a.(user := Some(u), loginState := Some(LoggedIn)), asked + [SessionSaved(written)])
        case InvalidCode =>
          LoginStep(Ok(WrongCode), a.(loginState := Some(WrongCode)), asked)
        case SignInFailed(e) =>
          LoginStep(Err(e), a, asked)
  }

  function ProvidePasswordStep(a: Auth, password: string, authorized: Result<bool>,
                               answer: Result<UserInfo>, written: bool): LoginStep
  {
    if a.loginState.None? then Panic(a, "no login state")
    else if a.loginState.value != PasswordRequired then LoginStep(Err(PasswordNotRequired), a, [])
    else
      match authorized
      case Err(_) => Panic(a, "is_authorized failed")
      case Ok(true) => LoginStep(Ok(LoggedIn), LoggedInAuth(a), [SessionSaved(written)])
      case Ok(false) =>
        if a.passwordToken.None? then Panic(a, "no password token")
        else
          var asked := [ClientCalled(CheckPassword(a.passwordToken.value, password))];
          match answer
          case Err(e) => LoginStep(Err(e), a, asked)
          case Ok(u) =>
            LoginStep(Ok(LoggedIn),
                      a.(user := Some(u), loginState := Some(LoggedIn), passwordToken := None),
                      asked + [SessionSaved(written)])
  }

  // ---------------------------------------------------------------------
  // The methods on the backend

  method LoginWithPhone(b: Backend, phone: string, authorized: Result<bool>,
                        codeRequest: Result<LoginToken>, written: bool)
      returns (r: Result<LoginState>)
    modifies b`loginToken, b`loginState, b`log
    ensures var s := LoginWithPhoneStep(old(b.AuthOf()), phone, authorized, codeRequest, written);
            r == s.result && b.AuthOf() == s.auth && b.log == old(b.log) + s.events
    ensures old(b.Valid()) ==> b.Valid()
  {
    if authorized.Err? {
      return Err(Panicked("is_authorized failed"));
    }
    if !authorized.value {
      b.log := b.log + [ClientCalled(RequestLoginCode(phone))];
      match codeRequest {
        case Ok(token) =>
          b.loginToken := Some(token);
        case Err(e) =>
          return Err(e);
      }
      b.loginState := Some(CodeRequired);
    } else {
      b.loginState := Some(LoggedIn);
      b.SaveSession(written);
      return Ok(LoggedIn);
    }
    r := Ok(CodeRequired);
  }

  method ProvideVerifyCode(b: Backend, code: string, authorized: Result<bool>,
                           answer: SignInAnswer, written: bool)
      returns (r: Result<LoginState>)
    modifies b`user, b`loginToken, b`loginState, b`passwordToken, b`log
    ensures var s := ProvideVerifyCodeStep(old(b.AuthOf()), code, authorized, answer, written);
            r == s.result && b.AuthOf() == s.auth && b.log == old(b.log) + s.events
    ensures old(b.Valid()) ==> b.Valid()
  {
    if authorized.Err? {
      return Err(Panicked("is_authorized failed"));
    }
    if !authorized.value {
      if b.loginToken.None? {
        return Err(Panicked("no login token"));
      }
      b.log := b.log + [ClientCalled(SignIn(b.loginToken.value, code))];
      match answer {
        case PasswordNeeded(pt) =>
          b.loginState := Some(PasswordRequired);
          b.passwordToken := Some(pt);
          b.loginToken := None;
          return Ok(PasswordRequired);
        case SignedIn(u) =>
          b.user := Some(u);
          b.loginState := Some(LoggedIn);
          b.SaveSession(written);
        case InvalidCode =>
          b.loginState := Some(WrongCode);
          return Ok(WrongCode);
        case SignInFailed(e) =>
          return Err(e);
      }
    } else {
      b.loginState := Some(LoggedIn);
      b.SaveSession(written);
    }
    r := Ok(LoggedIn);
  }

  method ProvidePassword(b: Backend, password: string, authorized: Result<bool>,
                         answer: Result<UserInfo>, written: bool)
      returns (r: Result<LoginState>)
    modifies b`user, b`loginState, b`passwordToken, b`log
    ensures var s := ProvidePasswordStep(old(b.AuthOf()), password, authorized, answer, written);
            r == s.result && b.AuthOf() == s.auth && b.log == old(b.log) + s.events
    ensures old(b.Valid()) ==> b.Valid()
  {
    if b.loginState.None? {
      return Err(Panicked("no login state"));
    }
    if b.loginState.value != PasswordRequired {
      return Err(PasswordNotRequired);
    }
    if authorized.Err? {
      return Err(Panicked("is_authorized failed"));
    }
    if !authorized.value {
      if b.passwordToken.None? {
        return Err(Panicked("no password token"));
      }
      b.log := b.log + [ClientCalled(CheckPassword(b.passwordToken.value, password))];
      match answer {
        case Ok(u) =>
          b.user := Some(u);
          b.loginState := Some(LoggedIn);
          b.passwordToken := None;
        case Err(e) =>
          return Err(e);
      }
    } else {
      b.loginState := Some(LoggedIn);
    }
    b.SaveSession(written);
    r := Ok(LoggedIn);
  }

  // ---------------------------------------------------------------------
  // Properties of the step functions

  /** Already authorised: `LoggedIn`, one session save, and no code request. */
  lemma LoginWhenAuthorized(a: Auth, phone: string, codeRequest: Result<LoginToken>, written: bool)
    ensures var s := LoginWithPhoneStep(a, phone, Ok(true), codeRequest, written);
            && s.result == Ok(LoggedIn) && s.auth.loginState == Some(LoggedIn)
            && s.auth.loginToken == a.loginToken
            && s.events == [SessionSaved(written)]
            && forall e :: e in s.events ==> !e.ClientCalled?
  {
  }

  /** Not authorised: the code is requested for the given phone; on success
      the token is stored and `CodeRequired` returned, on failure the error
      is returned and no login field changes. */
  lemma LoginRequestsCode(a: Auth, phone: string, codeRequest: Result<LoginToken>, written: bool)
    ensures var s := LoginWithPhoneStep(a, phone, Ok(false), codeRequest, written);
            && s.events == [ClientCalled(RequestLoginCode(phone))]
            && (codeRequest.Ok? ==>
                  s.result == Ok(CodeRequired) && s.auth.loginToken == Some(codeRequest.value)
                  && s.auth.loginState == Some(CodeRequired))
            && (codeRequest.Err? ==> s.result == Err(codeRequest.error) && s.auth == a)
  {
  }

  /** The outcomes of checking a code, when not yet authorised and a login
      token is held. */
  lemma VerifyCodeOutcomes(a: Auth, code: string, answer: SignInAnswer, written: bool)
    requires a.loginToken.Some?
    ensures var s := ProvideVerifyCodeStep(a, code, Ok(false), answer, written);
            && s.events[0] == ClientCalled(SignIn(a.loginToken.value, code))
            && (answer.PasswordNeeded? ==>
                  s.result == Ok(PasswordRequired) && s.auth.loginState == Some(PasswordRequired)
                  && s.auth.passwordToken == Some(answer.passwordToken) && s.auth.loginToken.None?)
            && (answer.SignedIn? ==>
                  s.result == Ok(LoggedIn) && s.auth.user == Some(answer.user)
                  && s.auth.loginState == Some(LoggedIn) && s.events[|s.events| - 1] == SessionSaved(written))
            && (answer.InvalidCode? ==>
                  s.result == Ok(WrongCode) && s.auth == a.(loginState := Some(WrongCode)))
            && (answer.SignInFailed? ==> s.result == Err(answer.error) && s.auth == a)
  {
  }

  /** A wrong code keeps the login token, so the next attempt signs in with
      the same token. */
  lemma WrongCodeRetryReusesToken(a: Auth, code1: string, code2: string, answer2: SignInAnswer, written: bool)
    requires a.loginToken.Some?
    ensures var first := ProvideVerifyCodeStep(a, code1, Ok(false), InvalidCode, written);
            var second := ProvideVerifyCodeStep(first.auth, code2, Ok(false), answer2, written);
            && first.auth.loginState == Some(WrongCode)
            && second.events[0] == ClientCalled(SignIn(a.loginToken.value, code2))
  {
  }

  /** `provide_password` refuses unless a password is awaited, without asking
      the client; with no login state at all it panics. */
  lemma PasswordOnlyWhenRequired(a: Auth, password: string, authorized: Result<bool>,
                                 answer: Result<UserInfo>, written: bool)
    requires a.loginState != Some(PasswordRequired)
    ensures var s := ProvidePasswordStep(a, password, authorized, answer, written);
            && s.auth == a && s.events == []
            && (a.loginState.None? ==> s.result.Err? && s.result.error.Panicked?)
            && (a.loginState.Some? ==> s.result == Err(PasswordNotRequired))
  {
  }

  /** A correct password logs in, drops the password token and saves the
      session; a rejected one leaves `PasswordRequired` and the token. */
  lemma PasswordOutcomes(a: Auth, password: string, answer: Result<UserInfo>, written: bool)
    requires a.loginState == Some(PasswordRequired) && a.passwordToken.Some?
    ensures var s := ProvidePasswordStep(a, password, Ok(false), answer, written);
            && s.events[0] == ClientCalled(CheckPassword(a.passwordToken.value, password))
            && (answer.Ok? ==>
                  s.result == Ok(LoggedIn) && s.auth.loginState == Some(LoggedIn)
                  && s.auth.passwordToken.None? && s.auth.user == Some(answer.value)
                  && s.events[|s.events| - 1] == SessionSaved(written))
            && (answer.Err? ==>
                  s.result == Err(answer.error) && s.auth.loginState == Some(PasswordRequired)
                  && s.auth.passwordToken == a.passwordToken)
  {
  }

  /** The states a step can leave behind. */
  predicate Produced(s: LoginState) {
    s == CodeRequired || s == PasswordRequired || s == LoggedIn || s == WrongCode
  }

  /** No step ever enters `WrongPhoneNumber`, `WrongPassword` or
      `LoginFailure`: a step either keeps the state it found or sets one of
      the four states above. */
  lemma StepsNeverProduceUnusedStates(a: Auth, input: string, authorized: Result<bool>,
                                      codeRequest: Result<LoginToken>, answer: SignInAnswer,
                                      check: Result<UserInfo>, written: bool)
    ensures var s1 := LoginWithPhoneStep(a, input, authorized, codeRequest, written);
            var s2 := ProvideVerifyCodeStep(a, input, authorized, answer, written);
            var s3 := ProvidePasswordStep(a, input, authorized, check, written);
            && (s1.auth.loginState == a.loginState || Produced(s1.auth.loginState.value))
            && (s2.auth.loginState == a.loginState || Produced(s2.auth.loginState.value))
            && (s3.auth.loginState == a.loginState || Produced(s3.auth.loginState.value))
            && (s1.result.Ok? ==> Produced(s1.result.value))
            && (s2.result.Ok? ==> Produced(s2.result.value))
            && (s3.result.Ok? ==> Produced(s3.result.value))
  {
  }

  /** Every step keeps the tokens the waiting states need. */
  lemma StepsKeepAuthConsistent(a: Auth, input: string, authorized: Result<bool>,
                                codeRequest: Result<LoginToken>, answer: SignInAnswer,
                                check: Result<UserInfo>, written: bool)
    requires AuthConsistent(a)
    ensures AuthConsistent(LoginWithPhoneStep(a, input, authorized, codeRequest, written).auth)
    ensures AuthConsistent(ProvideVerifyCodeStep(a, input, authorized, answer, written).auth)
    ensures AuthConsistent(ProvidePasswordStep(a, input, authorized, check, written).auth)
  {
  }

  /** From a fresh backend: request a code, give a wrong code, give the right
      one that needs a password, then the password; every field ends where
      the source leaves it. */
  lemma TwoFactorLoginScenario(phone: string, token: LoginToken, pt: PasswordToken, u: UserInfo)
    ensures var s0 := Auth(None, None, None, None);
            var s1 := LoginWithPhoneStep(s0, phone, Ok(false), Ok(token), true);
            var s2 := ProvideVerifyCodeStep(s1.auth, "11111", Ok(false), InvalidCode, true);
            var s3 := ProvideVerifyCodeStep(s2.auth, "12345", Ok(false), PasswordNeeded(pt), true);
            var s4 := ProvidePasswordStep(s3.auth, "secret", Ok(false), Ok(u), true);
            && s1.result == Ok(CodeRequired) && s2.result == Ok(WrongCode)
            && s3.result == Ok(PasswordRequired) && s4.result == Ok(LoggedIn)
            && s3.events == [ClientCalled(SignIn(token, "12345"))]
            && s4.auth == Auth(Some(u), None, Some(LoggedIn), None)
  {
  }
}
