/** The four credential operations of the `useAuth` hook. Each one turns the
    outcome of one provider call into an `AuthResult`; a rejected call is caught
    and becomes a failed result, so no operation throws on a rejection with
    an object. Sign-in, sign-up
    and reset-password translate the provider's error code through a fixed
    table of their own, with a fallback for every other code; sign-out passes
    the provider's message through untouched. */
module Credentials {
  import opened Options
  import opened Provider

  /** The record every operation resolves to. */
  datatype AuthResult = AuthResult(success: bool, user: Option<User>, error: Option<string>)

  /** The shape every result has: a success carries no error, a failure carries
      no user, whatever the provider did. */
  predicate WellFormed(r: AuthResult) {
    && (r.success ==> r.error.None?)
    && (!r.success ==> r.user.None?)
  }

  // Provider error codes the operations recognise.
  const UserNotFound := "auth/user-not-found"
  const WrongPassword := "auth/wrong-password"
  const InvalidEmail := "auth/invalid-email"
  const EmailAlreadyInUse := "auth/email-already-in-use"
  const WeakPassword := "auth/weak-password"

  // Messages shown to the user.
  const NoAccountMessage := "No account found with this email address"
  const IncorrectPasswordMessage := "Incorrect password"
  const InvalidEmailMessage := "Invalid email address"
  const EmailInUseMessage := "That email address is already in use"
  const EmailInvalidMessage := "That email address is invalid"
  const WeakPasswordMessage := "Password should be at least 6 characters"

  const SignInFallback := "An error occurred during sign in"
  const SignUpFallback := "An error occurred during sign up"
  const ResetFallback := "An error occurred while resetting password"

  /** The per-operation translation tables, as lookup tables: a code in the
      table gets its entry, any other code (or none) gets the fallback. */
  const SignInMessages: map<string, string> :=
    map[UserNotFound := NoAccountMessage,
        WrongPassword := IncorrectPasswordMessage,
        InvalidEmail := InvalidEmailMessage]

  const SignUpMessages: map<string, string> :=
    map[EmailAlreadyInUse := EmailInUseMessage,
        InvalidEmail := EmailInvalidMessage,
        WeakPassword := WeakPasswordMessage]

  const ResetMessages: map<string, string> :=
    map[UserNotFound := NoAccountMessage,
        InvalidEmail := InvalidEmailMessage]

  function Lookup(table: map<string, string>, fallback: string, code: Option<string>): string {
    if code.Some? && code.value in table then table[code.value] else fallback
  }

  /** Sign-in's chain of code comparisons. */
  function SignInMessage(code: Option<string>): (m: string)
    ensures m == Lookup(SignInMessages, SignInFallback, code)
    ensures m in SignInMessages.Values || m == SignInFallback
  {
    if code == Some(UserNotFound) then NoAccountMessage
    else if code == Some(WrongPassword) then IncorrectPasswordMessage
    else if code == Some(InvalidEmail) then InvalidEmailMessage
    else SignInFallback
  }

  /** Sign-up's chain of code comparisons. */
  function SignUpMessage(code: Option<string>): (m: string)
    ensures m == Lookup(SignUpMessages, SignUpFallback, code)
    ensures m in SignUpMessages.Values || m == SignUpFallback
  {
    if code == Some(EmailAlreadyInUse) then EmailInUseMessage
    else if code == Some(InvalidEmail) then EmailInvalidMessage
    else if code == Some(WeakPassword) then WeakPasswordMessage
    else SignUpFallback
  }

  /** Reset-password's chain of code comparisons. */
  function ResetMessage(code: Option<string>): (m: string)
    ensures m == Lookup(ResetMessages, ResetFallback, code)
    ensures m in ResetMessages.Values || m == ResetFallback
  {
    if code == Some(UserNotFound) then NoAccountMessage
    else if code == Some(InvalidEmail) then InvalidEmailMessage
    else ResetFallback
  }

  /** `signIn(email, password)`, given what the provider's password sign-in
      settled to. */
  function SignIn(outcome: Outcome<User>): (r: AuthResult)
    ensures WellFormed(r)
    ensures r.success <==> outcome.Ok?
    ensures outcome.Ok? ==> r.user == Some(outcome.value)
    ensures outcome.Err? ==> r.error == Some(Lookup(SignInMessages, SignInFallback, outcome.code))
    ensures !r.success ==> r.error.Some? && |r.error.value| > 0
  {
    match outcome
    case Ok(user) => AuthResult(true, Some(user), None)
    case Err(code, _) => AuthResult(false, None, Some(SignInMessage(code)))
  }

  /** `signUp(email, password)`, given what the provider's account creation
      settled to. */
  function SignUp(outcome: Outcome<User>): (r: AuthResult)
    ensures WellFormed(r)
    ensures r.success <==> outcome.Ok?
    ensures outcome.Ok? ==> r.user == Some(outcome.value)
    ensures outcome.Err? ==> r.error == Some(Lookup(SignUpMessages, SignUpFallback, outcome.code))
    ensures !r.success ==> r.error.Some? && |r.error.value| > 0
  {
    match outcome
    case Ok(user) => AuthResult(true, Some(user), None)
    case Err(code, _) => AuthResult(false, None, Some(SignUpMessage(code)))
  }

  /** `signOutUser()`, given what the provider's sign-out settled to. */
  function SignOutUser(outcome: Outcome<()>): (r: AuthResult)
    ensures WellFormed(r)
    ensures r.success <==> outcome.Ok?
    ensures r.user.None?
    ensures outcome.Err? ==> r.error == outcome.message
  {
    match outcome
    case Ok(_) => AuthResult(true, None, None)
    case Err(_, message) => AuthResult(false, None, message)
  }

  /** `resetPassword(email)`, given what the provider's reset e-mail request
      settled to. */
  function ResetPassword(outcome: Outcome<()>): (r: AuthResult)
    ensures WellFormed(r)
    ensures r.success <==> outcome.Ok?
    ensures r.user.None?
    ensures outcome.Err? ==> r.error == Some(Lookup(ResetMessages, ResetFallback, outcome.code))
    ensures !r.success ==> r.error.Some? && |r.error.value| > 0
  {
    match outcome
    case Ok(_) => AuthResult(true, None, None)
    case Err(code, _) => AuthResult(false, None, Some(ResetMessage(code)))
  }

  /** A failed sign-in is reported with exactly one of four fixed messages, one
      per recognised code and the fallback for everything else, and the
      provider's own message never reaches the caller. */
  lemma SignInFailureMessages(code: Option<string>, message: Option<string>)
    ensures var r := SignIn(Err(code, message));
      && r == AuthResult(false, None, r.error)
      && (code == Some(UserNotFound) <==> r.error == Some(NoAccountMessage))
      && (code == Some(WrongPassword) <==> r.error == Some(IncorrectPasswordMessage))
      && (code == Some(InvalidEmail) <==> r.error == Some(InvalidEmailMessage))
      && (code !in {Some(UserNotFound), Some(WrongPassword), Some(InvalidEmail)}
          <==> r.error == Some(SignInFallback))
  {
  }

  /** A failed sign-up is reported with exactly one of four fixed messages. */
  lemma SignUpFailureMessages(code: Option<string>, message: Option<string>)
    ensures var r := SignUp(Err(code, message));
      && r == AuthResult(false, None, r.error)
      && (code == Some(EmailAlreadyInUse) <==> r.error == Some(EmailInUseMessage))
      && (code == Some(InvalidEmail) <==> r.error == Some(EmailInvalidMessage))
      && (code == Some(WeakPassword) <==> r.error == Some(WeakPasswordMessage))
      && (code !in {Some(EmailAlreadyInUse), Some(InvalidEmail), Some(WeakPassword)}
          <==> r.error == Some(SignUpFallback))
  {
  }

  /** A failed reset is reported with exactly one of three fixed messages; in
      particular a wrong-password or weak-password code gets the fallback. */
  lemma ResetFailureMessages(code: Option<string>, message: Option<string>)
    ensures var r := ResetPassword(Err(code, message));
      && r == AuthResult(false, None, r.error)
      && (code == Some(UserNotFound) <==> r.error == Some(NoAccountMessage))
      && (code == Some(InvalidEmail) <==> r.error == Some(InvalidEmailMessage))
      && (code !in {Some(UserNotFound), Some(InvalidEmail)} <==> r.error == Some(ResetFallback))
      && (code == Some(WrongPassword) ==> r.error == Some(ResetFallback))
      && (code == Some(WeakPassword) ==> r.error == Some(ResetFallback))
  {
  }

  /** Sign-up and sign-in word the invalid-email failure differently, and
      reset-password shares sign-in's wording. */
  lemma InvalidEmailWording(message: Option<string>)
    ensures SignIn(Err(Some(InvalidEmail), message)).error
         != SignUp(Err(Some(InvalidEmail), message)).error
    ensures ResetPassword(Err(Some(InvalidEmail), message)).error
         == SignIn(Err(Some(InvalidEmail), message)).error
  {
  }

  /** Sign-out applies no translation: its failure depends on the provider's
      message alone, never on the code, and a missing message leaves the
      failure without any error text. */
  lemma SignOutPassesMessageThrough(code1: Option<string>, code2: Option<string>, message: Option<string>)
    ensures SignOutUser(Err(code1, message)) == SignOutUser(Err(code2, message))
    ensures SignOutUser(Err(code1, message)) == AuthResult(false, None, message)
  {
  }
}
