/** The bundle the `useAuth` hook returns: the session state, under the names
    consumers read, together with the four credential operations. The
    operations take the outcome of their provider call in place of the call's
    arguments. */
module AuthHook {
  import opened Options
  import opened Provider
  import opened Credentials
  import opened SessionObserver

  datatype AuthBundle = AuthBundle(
    user: Option<User>,
    loading: bool,
    signIn: Outcome<User> -> AuthResult,
    signUp: Outcome<User> -> AuthResult,
    signOut: Outcome<()> -> AuthResult,
    resetPassword: Outcome<()> -> AuthResult)

  /** The bundle published for session state `s`. */
  function UseAuth(s: AuthState): (b: AuthBundle)
    ensures b.user == s.user
    ensures b.loading == s.initializing
    ensures forall o :: b.signIn(o) == SignIn(o)
    ensures forall o :: b.signUp(o) == SignUp(o)
    ensures forall o :: b.signOut(o) == SignOutUser(o)
    ensures forall o :: b.resetPassword(o) == ResetPassword(o)
  {
    AuthBundle(s.user, s.initializing, SignIn, SignUp, SignOutUser, ResetPassword)
  }

  /** What a consumer of a fresh hook reads after the feed reported `reports`:
      `loading` until the first report, and the last reported user. */
  lemma BundleAfterReports(reports: seq<Option<User>>)
    ensures UseAuth(Replay(reports)).loading <==> |reports| == 0
    ensures |reports| == 0 ==> UseAuth(Replay(reports)).user == None
    ensures |reports| > 0 ==> UseAuth(Replay(reports)).user == reports[|reports| - 1]
  {
    LoadingUntilFirstReport(reports);
  }
}
