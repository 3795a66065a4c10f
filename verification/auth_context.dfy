/** The context through which the `useAuth` bundle reaches the component tree:
    `AuthProvider` publishes the bundle, and `useAuthContext` reads it back,
    failing loudly when no provider encloses the caller. The context value is
    `None` outside every provider, as React's default `undefined` is. */
module AuthContext {
  import opened Options
  import opened Provider
  import opened SessionObserver
  import opened AuthHook

  /** The error `useAuthContext` throws. */
  datatype ConfigurationError = ConfigurationError(message: string)

  const OutsideProviderMessage := "useAuthContext must be used within an AuthProvider"

  /** The context value `AuthProvider` makes visible to its descendants. */
  function AuthProvider(s: AuthState): (context: Option<AuthBundle>)
    ensures context.Some?
    ensures context.value.user == s.user && context.value.loading == s.initializing
  {
    Some(UseAuth(s))
  }

  /** `useAuthContext()`, given the context value visible at the caller. */
  function UseAuthContext(context: Option<AuthBundle>): (r: Result<AuthBundle, ConfigurationError>)
    ensures r.Failure? <==> context.None?
    ensures r.Failure? ==> r.error.message == OutsideProviderMessage
    ensures context.Some? ==> r.value == context.value
  {
    match context
    case None => Failure(ConfigurationError(OutsideProviderMessage))
    case Some(bundle) => Success(bundle)
  }

  /** Inside a provider, the accessor hands back exactly the bundle the hook
      returned. */
  lemma AccessInsideProvider(s: AuthState)
    ensures UseAuthContext(AuthProvider(s)) == Success(UseAuth(s))
  {
  }

  /** A consumer inside the provider sees the session of the feed: `loading`
      exactly until the first report, then the last reported user. */
  lemma ConsumerSeesSession(reports: seq<Option<User>>)
    ensures var r := UseAuthContext(AuthProvider(Replay(reports)));
      && r.Success?
      && (r.value.loading <==> |reports| == 0)
      && (|reports| > 0 ==> r.value.user == reports[|reports| - 1])
  {
    BundleAfterReports(reports);
  }
}
