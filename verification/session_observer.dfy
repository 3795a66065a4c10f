/** The session state the `useAuth` hook keeps: the last user the provider's
    auth-state feed reported, and whether the first report is still awaited.
    Only the feed's callback writes it. The feed itself (subscription,
    unsubscription, the timing of reports) is outside the model: a run of the
    feed is the sequence of values it reported, `null` being `None`. */
module SessionObserver {
  import opened Options
  import opened Provider

  datatype AuthState = AuthState(user: Option<User>, initializing: bool)

  /** The state before any report: no user, still initializing. */
  const Initial := AuthState(None, true)

  /** `handleAuthStateChanged(user)`: store the reported user, and clear the
      initializing flag. The hook clears it only when it is still set, so
      either way it ends up clear; the previous state is not consulted. */
  function HandleAuthStateChanged(s: AuthState, user: Option<User>): (r: AuthState)
    ensures r.user == user
    ensures !r.initializing
  {
    AuthState(user, false)
  }

  /** The state after the callback has run on each report of `reports`, in order. */
  function Run(s: AuthState, reports: seq<Option<User>>): AuthState
    decreases |reports|
  {
    if |reports| == 0 then s else Run(HandleAuthStateChanged(s, reports[0]), reports[1..])
  }

  /** The state of a fresh hook after the feed reported `reports`. */
  function Replay(reports: seq<Option<User>>): AuthState {
    Run(Initial, reports)
  }

  /** The flag survives a run exactly when it was set and nothing was reported. */
  lemma {:induction false} RunInitializing(s: AuthState, reports: seq<Option<User>>)
    ensures Run(s, reports).initializing <==> s.initializing && |reports| == 0
    decreases |reports|
  {
    if |reports| > 0 {
      RunInitializing(HandleAuthStateChanged(s, reports[0]), reports[1..]);
    }
  }

  /** After a run, the stored user is the last one reported, or the old one if
      nothing was reported. */
  lemma {:induction false} RunUser(s: AuthState, reports: seq<Option<User>>)
    ensures |reports| == 0 ==> Run(s, reports) == s
    ensures |reports| > 0 ==> Run(s, reports).user == reports[|reports| - 1]
    decreases |reports|
  {
    if |reports| > 1 {
      var rest := reports[1..];
      RunUser(HandleAuthStateChanged(s, reports[0]), rest);
      assert rest[|rest| - 1] == reports[|reports| - 1];
    }
  }

  /** Running two batches of reports one after the other is running them as one. */
  lemma {:induction false} RunAppend(s: AuthState, first: seq<Option<User>>, later: seq<Option<User>>)
    ensures Run(s, first + later) == Run(Run(s, first), later)
    decreases |first|
  {
    if |first| == 0 {
      assert first + later == later;
    } else {
      assert (first + later)[0] == first[0];
      assert (first + later)[1..] == first[1..] + later;
      RunAppend(HandleAuthStateChanged(s, first[0]), first[1..], later);
    }
  }

  /** `loading` holds before the first report and never after it, and the
      stored user is always the last value reported (none before any report). */
  lemma LoadingUntilFirstReport(reports: seq<Option<User>>)
    ensures Replay(reports).initializing <==> |reports| == 0
    ensures |reports| == 0 ==> Replay(reports).user == None
    ensures |reports| > 0 ==> Replay(reports).user == reports[|reports| - 1]
  {
    RunInitializing(Initial, reports);
    RunUser(Initial, reports);
  }

  /** Once the flag is clear it stays clear, whatever is reported later. */
  lemma NeverReinitializes(earlier: seq<Option<User>>, later: seq<Option<User>>)
    requires !Replay(earlier).initializing
    ensures !Replay(earlier + later).initializing
  {
    RunAppend(Initial, earlier, later);
    RunInitializing(Run(Initial, earlier), later);
  }

  /** The callback run over a whole feed, one report at a time. */
  method Observe(reports: seq<Option<User>>) returns (s: AuthState)
    ensures s == Replay(reports)
    ensures s.initializing <==> |reports| == 0
    ensures |reports| == 0 ==> s == Initial
    ensures |reports| > 0 ==> s.user == reports[|reports| - 1]
  {
    s := Initial;
    var i := 0;
    while i < |reports|
      invariant 0 <= i <= |reports|
      invariant Run(s, reports[i..]) == Replay(reports)
      invariant s.initializing <==> i == 0
      invariant i == 0 ==> s == Initial
      invariant i > 0 ==> s.user == reports[i - 1]
    {
      assert reports[i..][1..] == reports[i + 1..];
      s := HandleAuthStateChanged(s, reports[i]);
      i := i + 1;
    }
  }
}
