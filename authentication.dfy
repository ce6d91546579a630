/** Authenticate: the sign-in state machine. The phone code hash is static in the backend,
    so it survives from one backend instance to the next within a process; the first run
    asks Telegram to send a code and stops, a later run signs in with the code the user was
    sent, falling back to the cloud password when the account has one. */
module Authentication {
  import opened Wrappers
  import opened Errors
  import opened Configuration

  /** MakeAuthAsync: signed in, the account needs its cloud password, or another error. */
  datatype AuthReply = SignedIn | CloudPasswordNeeded | AuthFault(error: Error)

  /** The answers of Telegram's authentication calls in one run: SendCodeRequestAsync (the
      phone code hash or an error), MakeAuthAsync, and GetPasswordSetting followed by
      MakeAuthWithPasswordAsync. */
  datatype AuthServer = AuthServer(sendCode: Result<string, Error>, makeAuth: AuthReply, passwordLogin: Outcome<Error>)

  /** The state Authenticate reads and writes: the session's signed-in flag, the static
      phone code hash, and the number of session saves. */
  datatype AuthState = AuthState(authorized: bool, phoneCodeHash: Option<string>, saves: nat)

  datatype AuthStep = AuthStep(state: AuthState, outcome: Outcome<Error>)

  /** The session after a successful sign-in: marked signed in and saved. */
  function SignedInState(s: AuthState): AuthState
  {
    s.(authorized := true, saves := s.saves + 1)
  }

  /** Authenticate, once the client is connected. */
  function SignIn(s: AuthState, authCode: Option<string>, password: Option<string>, server: AuthServer): (r: AuthStep)
    // it returns exactly when the user was already signed in, or the code was already
    // requested and the sign-in, with the cloud password if it is demanded, succeeds
    ensures r.outcome.Pass? <==>
              s.authorized
              || (s.phoneCodeHash.Some?
                  && (server.makeAuth.SignedIn?
                      || (server.makeAuth.CloudPasswordNeeded? && !IsNullOrEmpty(password) && server.passwordLogin.Pass?)))
    // a signed-in client is left as it is, and a new sign-in saves the session once
    ensures s.authorized ==> r == AuthStep(s, Pass)
    ensures !s.authorized && r.outcome.Pass? ==> r.state.saves == s.saves + 1
    ensures r.outcome.Pass? ==> r.state.authorized
    ensures r.outcome.Fail? ==> r.state.authorized == s.authorized
    // the hash, once stored, is never replaced or cleared
    ensures s.phoneCodeHash.Some? ==> r.state.phoneCodeHash == s.phoneCodeHash
    ensures r.state.saves <= s.saves + 1
    // without a stored hash a code is requested and the run always fails
    ensures !s.authorized && s.phoneCodeHash.None? ==>
              r.outcome.Fail?
              && match server.sendCode
                 case Failure(e) => r == AuthStep(s, Fail(e))
                 case Success(h) =>
                   r.state == s.(phoneCodeHash := Some(h), saves := s.saves + 1)
                   && r.outcome == Fail(if IsNullOrEmpty(authCode) then NoAuthCode else WrongAuthCode)
  {
    if s.authorized then AuthStep(s, Pass)
    else if s.phoneCodeHash.None? then
      match server.sendCode
      case Failure(e) => AuthStep(s, Fail(e))
      case Success(h) =>
        var sent := s.(phoneCodeHash := Some(h), saves := s.saves + 1);
        AuthStep(sent, Fail(if IsNullOrEmpty(authCode) then NoAuthCode else WrongAuthCode))
    else
      match server.makeAuth
      case SignedIn => AuthStep(SignedInState(s), Pass)
      case AuthFault(e) => AuthStep(s, Fail(e))
      case CloudPasswordNeeded =>
        if IsNullOrEmpty(password) then AuthStep(s.(saves := s.saves + 1), Fail(NoPassword))
        else if server.passwordLogin.Fail? then AuthStep(s, server.passwordLogin)
        else AuthStep(SignedInState(s), Pass)
  }

  /** An account with a cloud password and no password configured: the session is saved and
      the run fails asking for the password, with the stored hash kept for the next run. */
  lemma SignInNeedsPassword(s: AuthState, authCode: Option<string>, password: Option<string>, server: AuthServer)
    requires !s.authorized && s.phoneCodeHash.Some?
    requires server.makeAuth.CloudPasswordNeeded? && IsNullOrEmpty(password)
    ensures SignIn(s, authCode, password, server) == AuthStep(s.(saves := s.saves + 1), Fail(NoPassword))
  {
  }

  /** Two runs in the same process: the first requests the code and stores its hash; the
      second, given a sign-in that succeeds with that code, signs the user in. */
  lemma SignInTwoRuns(s: AuthState, authCode: Option<string>, password: Option<string>, first: AuthServer, second: AuthServer)
    requires !s.authorized && s.phoneCodeHash.None? && first.sendCode.Success?
    requires second.makeAuth.SignedIn?
    ensures var one := SignIn(s, authCode, password, first);
            var two := SignIn(one.state, authCode, password, second);
            one.outcome.Fail? && two.outcome.Pass? && two.state.authorized
            && two.state.phoneCodeHash == Some(first.sendCode.value) && two.state.saves == s.saves + 2
  {
  }
}
