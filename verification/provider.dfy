/** The external identity provider, seen only through what its calls settle to.
    The provider itself (sign-in, account creation, sign-out, reset e-mail and
    the auth-state feed) is outside the model: each call is replaced by its
    outcome, which the model takes as an input. */
module Provider {
  import opened Options

  /** The provider's user record. The adapter never builds or inspects one; it
      only stores and hands back the reference it was given, so all the model
      needs is equality. */
  type User(==, !new)

  /** What a provider call settles to: it resolves with a value, or it rejects
      with a thrown object. The thrown value is untyped, so its `code` and
      `message` properties may be missing. A rejection with `null` or
      `undefined` is not an outcome here. */
  datatype Outcome<+T> =
    | Ok(value: T)
    | Err(code: Option<string>, message: Option<string>)
}
