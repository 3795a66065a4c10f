# Authentication session facade — verified model

A Dafny model of the authentication layer of a React Native app. The layer sits over an
external identity provider (Firebase Auth). It has two parts:

- the `useAuth` hook, in `hooks/useAuth.tsx`. It keeps the current user and an
  `initializing` flag. Both are updated by the provider's auth-state callback. The hook also
  offers four credential operations: sign-in, sign-up, sign-out and reset-password. Each
  operation turns the outcome of one provider call into an `AuthResult {success, user?, error?}`
  and does not throw when the provider rejects with an error object;
- the auth context, in `contexts/AuthContext.tsx`. `AuthProvider` publishes the hook's bundle
  to the component tree. `useAuthContext` reads the bundle back, or throws a configuration
  error when no provider encloses the caller.

Each provider call is replaced by its outcome, which the model takes as an input:
`Outcome = Ok(value) | Err(code?, message?)`. The thrown value is untyped in the source, so
its `code` and `message` may be missing. The provider's user is an opaque type with
equality only. A run of the auth-state feed is the sequence of values it reported, with
`null` written as `None`.

Modules:

- `Options` holds `Option` and `Result`.
- `Provider` holds the user type and the outcome type.
- `Credentials` holds `AuthResult`, the four operations and their message tables.
- `SessionObserver` holds the session state, the callback and replays of a feed.
- `AuthHook` holds the returned bundle.
- `AuthContext` holds the provider and the guarded accessor.

Two details of the code:

- Unlike the other three operations, sign-out does not guarantee a non-empty error. It passes
  the provider's `message` through, which may be empty, or absent when the thrown value has no
  `message`. `Credentials.SignOutUser` promises exactly that.
- The session is kept as a pair: the user, which may be null, and the `initializing` flag.

## Model

| member | source | states |
|---|---|---|
| `Credentials.SignInMessage` | hooks/useAuth.tsx:29-37 | sign-in's chain of code comparisons is the lookup table {user-not-found, wrong-password, invalid-email} with fallback "An error occurred during sign in"; the result is always a table entry or that fallback |
| `Credentials.SignUpMessage` | hooks/useAuth.tsx:48-56 | sign-up's chain is the table {email-already-in-use, invalid-email, weak-password} with fallback "An error occurred during sign up" |
| `Credentials.ResetMessage` | hooks/useAuth.tsx:76-82 | reset-password's chain is the table {user-not-found, invalid-email} with fallback "An error occurred while resetting password" |
| `Credentials.SignIn` | hooks/useAuth.tsx:24-41 | success exactly when the provider resolved, then carrying the credential's user and no error; a rejection gives no user and the sign-in table's message for the code, never empty |
| `Credentials.SignUp` | hooks/useAuth.tsx:43-60 | as sign-in, with the sign-up table |
| `Credentials.SignOutUser` | hooks/useAuth.tsx:62-69 | success exactly when the provider resolved; never a user; on rejection the error is the provider's message unchanged, possibly absent |
| `Credentials.ResetPassword` | hooks/useAuth.tsx:71-86 | success exactly when the provider resolved, with neither user nor error; a rejection gives the reset table's message, never empty |
| `Credentials.SignInFailureMessages` | hooks/useAuth.tsx:28-39 | a failed sign-in is `{success: false, error}` with no user, and each recognised code is equivalent to its own message, all other codes to the fallback |
| `Credentials.SignUpFailureMessages` | hooks/useAuth.tsx:47-58 | the same equivalences for sign-up's three codes and fallback |
| `Credentials.ResetFailureMessages` | hooks/useAuth.tsx:75-85 | the same for reset-password's two codes; wrong-password and weak-password fall to the fallback |
| `Credentials.InvalidEmailWording` | hooks/useAuth.tsx:52-53 | sign-up words the invalid-email failure differently from sign-in, and reset-password uses sign-in's wording |
| `Credentials.SignOutPassesMessageThrough` | hooks/useAuth.tsx:66-68 | sign-out's failure does not depend on the code: it is `{success: false, error: message}` for every code |
| `SessionObserver.HandleAuthStateChanged` | hooks/useAuth.tsx:15-18 | after a callback the stored user is exactly the reported value, null included, and the flag is clear |
| `SessionObserver.RunInitializing` | hooks/useAuth.tsx:12-17 | after a run of callbacks the flag is set exactly when it was set before and nothing was reported |
| `SessionObserver.RunUser` | hooks/useAuth.tsx:15-16 | after a run the stored user is the last reported value; an empty run changes nothing |
| `SessionObserver.RunAppend` | hooks/useAuth.tsx:15-18 | two runs of callbacks in sequence reach the same state as one run over both |
| `SessionObserver.LoadingUntilFirstReport` | hooks/useAuth.tsx:11-18 | starting from `(null, true)`, the flag is set exactly when nothing has been reported, and the user is null before the first report and the last reported value after |
| `SessionObserver.NeverReinitializes` | hooks/useAuth.tsx:17 | once the flag is clear, no further reports set it again |
| `SessionObserver.Observe` | hooks/useAuth.tsx:14-20 | processing the feed one report at a time reaches the replayed state: loading exactly when nothing was reported, user the last report |
| `AuthHook.UseAuth` | hooks/useAuth.tsx:88-95 | the bundle's `user` is the stored user and `loading` the flag; `signOut` is `signOutUser` and the other operations are exposed unchanged |
| `AuthHook.BundleAfterReports` | hooks/useAuth.tsx:88-90 | a consumer of a fresh hook sees `loading` until the first report and the last reported user afterwards |
| `AuthContext.AuthProvider` | contexts/AuthContext.tsx:16-24 | the provider publishes a defined context holding the hook's user and loading flag |
| `AuthContext.UseAuthContext` | contexts/AuthContext.tsx:26-32 | the accessor fails exactly when the context is undefined, with the message "useAuthContext must be used within an AuthProvider", and otherwise returns the context value itself |
| `AuthContext.AccessInsideProvider` | contexts/AuthContext.tsx:16-31 | inside a provider the accessor returns exactly the bundle `useAuth()` returned |
| `AuthContext.ConsumerSeesSession` | contexts/AuthContext.tsx:16-31 | a consumer inside the provider sees `loading` until the first report and then the last reported user |

## Left out

- The Firebase calls (`getAuth`, `signInWithEmailAndPassword`, `createUserWithEmailAndPassword`, `signOut`, `sendPasswordResetEmail`, `onAuthStateChanged`) are foreign library calls. Each is replaced by its outcome, so the email and password arguments appear only as what the provider made of them.
- The structure of the provider's user record is not modelled. The adapter only stores it and hands it back, so an opaque type with equality is enough.
- React's `useState`/`useEffect` machinery is not modelled. That includes subscribing, unsubscribing on unmount, re-subscribing when `initializing` changes, and idempotent teardown, which is left to the unsubscriber Firebase returns. This is framework plumbing with no logic of the adapter's own.
- A provider rejection with `null` or `undefined` is not modelled; the provider is assumed to reject with an error object. With such a rejection the `catch` blocks' reads of `error.code` (hooks/useAuth.tsx:31, 50, 78) and `error.message` (hooks/useAuth.tsx:67) throw a TypeError, and the operation itself rejects instead of returning a result.
- Asynchrony is not modelled. Promise timing, and the order between an operation's result and the auth-state callback it later causes, are event-loop behaviour.
- `createContext` and JSX rendering are not modelled. A context value is `None` outside every provider and the published bundle inside one. The `AuthContextType` interface's loose `any` typing is not modelled either.
