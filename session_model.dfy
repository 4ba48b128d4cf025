/**
 * The session lifecycle of `AuthProvider` (src/app/auth/AuthContext.tsx) as a
 * pure state machine. A `Snapshot` holds the three pieces of state the
 * provider drives: the in-memory `authState` record, the secure-store slot
 * under the key `TOKEN_KEY`, and the process-wide default `Authorization`
 * header of the HTTP client. Each operation is a function from snapshot to
 * snapshot; the class in module AuthContext is proved to follow them.
 */
module SessionModel {
  import opened Wrappers

  /** The single key under which the token is persisted. */
  const TokenKey: string := "token"

  /** `{token: string | null, authenticated: boolean | null}`. */
  datatype AuthState = AuthState(token: Option<string>, authenticated: Option<bool>)

  /** Before the store has been consulted: `{token: null, authenticated: null}`. */
  const Unknown: AuthState := AuthState(None, None)

  /** `{token: null, authenticated: false}`. */
  const Unauthenticated: AuthState := AuthState(None, Some(false))

  /** `{token: t, authenticated: true}`. */
  function Authenticated(t: string): AuthState
  {
    AuthState(Some(t), Some(true))
  }

  /** The value the `Authorization` header is given for token `t`. */
  function Bearer(t: string): string
  {
    "Bearer " + t
  }

  /**
   * Everything the provider reads or writes: the session record, the
   * secure-store slot for `TokenKey` (`None` when the key is absent), and the
   * default `Authorization` header (`None` when it was never assigned).
   */
  datatype Snapshot = Snapshot(authState: AuthState, store: Option<string>, header: Option<string>)

  /** The outcome of one `axios.post`: a 2xx reply carrying `data`, or an error
      reply whose body carries the server's `msg`. */
  datatype HttpReply<+T> = Ok(data: T) | Rejected(msg: string)

  /** What an operation's promise resolves to: a value, or `{error: true, msg}`. */
  datatype Outcome<+T> = Returned(value: T) | Error(msg: string)

  /** JavaScript truthiness of the value read back from the store:
      `null` and `""` are both falsy. */
  predicate HasToken(stored: Option<string>)
  {
    stored.Some? && stored.value != ""
  }

  /**
   * The consistency between the three pieces of state that every operation
   * keeps: an undetermined or unauthenticated session holds no token, an
   * unauthenticated one has nothing restorable in the store, and an
   * authenticated one has its token both in the header and in the store.
   */
  ghost predicate Inv(s: Snapshot)
  {
    match s.authState.authenticated
    case None => s.authState.token == None
    case Some(false) => s.authState.token == None && !HasToken(s.store)
    case Some(true) =>
      s.authState.token.Some? &&
      s.header == Some(Bearer(s.authState.token.value)) &&
      s.store == s.authState.token
  }

  /** A session that is not authenticated carries no bearer credential in
      the header: it was never assigned, or logout blanked it. */
  ghost predicate HeaderCleared(s: Snapshot)
  {
    s.authState.authenticated != Some(true) ==> s.header == None || s.header == Some("")
  }

  /** A session whose token, if any, is not the empty string. */
  ghost predicate NonEmptyToken(s: Snapshot)
  {
    s.authState.token != Some("")
  }

  /** Mounting the provider in a fresh process: the store still holds what
      was persisted before, the header was never assigned, and the session is
      not yet determined. */
  function Boot(persisted: Option<string>): (r: Snapshot)
    ensures r.authState.authenticated == None && r.authState.token == None
    ensures r.store == persisted && r.header == None
    ensures Inv(r)
  {
    Snapshot(Unknown, persisted, None)
  }

  /** `loadToken`: read the store; a truthy token authenticates the session
      and sets the header, anything else makes it unauthenticated. */
  function Restore(s: Snapshot): (r: Snapshot)
    ensures r.store == s.store
    ensures r.authState.authenticated.Some?
    ensures r.authState.authenticated == Some(true) <==> HasToken(s.store)
    ensures HasToken(s.store) ==>
              r.authState == Authenticated(s.store.value) && r.header == Some(Bearer(s.store.value))
    ensures !HasToken(s.store) ==> r.authState == Unauthenticated && r.header == s.header
    ensures Inv(r) && NonEmptyToken(r)
  {
    var token := s.store;
    if HasToken(token) then
      var withHeader := s.(header := Some(Bearer(token.value)));
      withHeader.(authState := Authenticated(token.value))
    else
      s.(authState := Unauthenticated)
  }

  /** `register`: the request's outcome is handed back to the caller, the
      session, the store and the header are left alone. */
  function Register<P>(s: Snapshot, reply: HttpReply<P>): (r: (Snapshot, Outcome<P>))
    ensures r.0 == s
    ensures reply.Ok? <==> r.1.Returned?
    ensures reply.Ok? ==> r.1.value == reply.data
    ensures reply.Rejected? ==> r.1.msg == reply.msg
  {
    match reply
    case Ok(response) => (s, Returned(response))
    case Rejected(msg) => (s, Error(msg))
  }

  /**
   * `login`: on a 2xx reply with token `t` the session becomes authenticated
   * with `t`, the header carries `t` and the store holds `t`, whatever came
   * before; on an error reply nothing is written and the server's message is
   * returned. The promise of a successful login resolves to `undefined`,
   * written `Returned(())`.
   */
  function Login(s: Snapshot, reply: HttpReply<string>): (r: (Snapshot, Outcome<()>))
    ensures reply.Ok? ==>
              r.0.authState == Authenticated(reply.data) &&
              r.0.header == Some(Bearer(reply.data)) &&
              r.0.store == Some(reply.data) &&
              r.1 == Returned(())
    ensures reply.Rejected? ==> r.0 == s && r.1 == Error(reply.msg)
    ensures Inv(s) ==> Inv(r.0)
    ensures NonEmptyToken(s) && (reply.Ok? ==> reply.data != "") ==> NonEmptyToken(r.0)
  {
    match reply
    case Ok(t) =>
      var signedIn := s.(authState := Authenticated(t));
      var withHeader := signedIn.(header := Some(Bearer(t)));
      (withHeader.(store := Some(t)), Returned(()))
    case Rejected(msg) => (s, Error(msg))
  }

  /** `logout`: delete the stored token, blank the header, and make the
      session unauthenticated, from any prior state. */
  function Logout(s: Snapshot): (r: Snapshot)
    ensures r.authState == Unauthenticated
    ensures r.store == None && r.header == Some("")
    ensures Inv(r) && NonEmptyToken(r)
    ensures Restore(Boot(r.store)).authState == Unauthenticated
  {
    var deleted := s.(store := None);
    var cleared := deleted.(header := Some(""));
    cleared.(authState := Unauthenticated)
  }

  /** Restarting the process: only the persisted store survives. */
  function Restart(s: Snapshot): (r: Snapshot)
    ensures r.authState == Unknown && r.header == None
    ensures r.store == s.store
  {
    Boot(s.store)
  }

  // ---------------------------------------------------------------------
  // Sequences of operations after the initial restore

  /** A user-driven operation; a register's success body is left opaque. */
  datatype Op = RegisterOp(reply: HttpReply<string>) | LoginOp(reply: HttpReply<string>) | LogoutOp

  function Apply(s: Snapshot, op: Op): (r: Snapshot)
    ensures Inv(s) ==> Inv(r)
    ensures HeaderCleared(s) ==> HeaderCleared(r)
    ensures s.authState.authenticated.Some? ==> r.authState.authenticated.Some?
  {
    match op
    case RegisterOp(reply) => Register(s, reply).0
    case LoginOp(reply) => Login(s, reply).0
    case LogoutOp => Logout(s)
  }

  /** Runs the operations in order; the consistency invariant holds
      afterwards whenever it held before. */
  function Run(s: Snapshot, ops: seq<Op>): (r: Snapshot)
    ensures Inv(s) ==> Inv(r)
    decreases |ops|
  {
    if ops == [] then s else Run(Apply(s, ops[0]), ops[1..])
  }

  /** Every successful login in `ops` received a non-empty token. */
  ghost predicate NonEmptyLogins(ops: seq<Op>)
  {
    forall i :: 0 <= i < |ops| && ops[i].LoginOp? && ops[i].reply.Ok? ==> ops[i].reply.data != ""
  }

  /** `ops` without its register calls. */
  function WithoutRegisters(ops: seq<Op>): (r: seq<Op>)
    ensures |r| <= |ops|
    ensures forall op :: op in r <==> op in ops && !op.RegisterOp?
  {
    if ops == [] then []
    else if ops[0].RegisterOp? then WithoutRegisters(ops[1..])
    else [ops[0]] + WithoutRegisters(ops[1..])
  }

  /** Running two histories one after the other. */
  lemma {:induction false} RunAppend(s: Snapshot, a: seq<Op>, b: seq<Op>)
    ensures Run(s, a + b) == Run(Run(s, a), b)
    decreases |a|
  {
    if a == [] {
      assert a + b == b;
    } else {
      assert (a + b)[1..] == a[1..] + b;
      RunAppend(Apply(s, a[0]), a[1..], b);
    }
  }

  /** Once restore has determined the session, no sequence of operations
      makes `authenticated` null again. */
  lemma {:induction false} RunStaysDetermined(s: Snapshot, ops: seq<Op>)
    requires s.authState.authenticated.Some?
    ensures Run(s, ops).authState.authenticated.Some?
    decreases |ops|
  {
    if ops != [] {
      RunStaysDetermined(Apply(s, ops[0]), ops[1..]);
    }
  }

  /** No sequence of operations leaves a stale bearer header on a session
      that is not authenticated. */
  lemma {:induction false} RunKeepsHeaderCleared(s: Snapshot, ops: seq<Op>)
    requires HeaderCleared(s)
    ensures HeaderCleared(Run(s, ops))
    decreases |ops|
  {
    if ops != [] {
      RunKeepsHeaderCleared(Apply(s, ops[0]), ops[1..]);
    }
  }

  /** Register calls are invisible: a history behaves as the same history
      with every register removed. */
  lemma {:induction false} RegisterInvisible(s: Snapshot, ops: seq<Op>)
    ensures Run(s, ops) == Run(s, WithoutRegisters(ops))
    decreases |ops|
  {
    if ops != [] {
      RegisterInvisible(Apply(s, ops[0]), ops[1..]);
      if !ops[0].RegisterOp? {
        var rest := WithoutRegisters(ops[1..]);
        assert WithoutRegisters(ops) == [ops[0]] + rest;
        assert ([ops[0]] + rest)[1..] == rest;
      }
    }
  }

  /** Non-empty tokens stay non-empty as long as the server only hands out
      non-empty tokens. */
  lemma {:induction false} RunKeepsNonEmptyToken(s: Snapshot, ops: seq<Op>)
    requires NonEmptyToken(s) && NonEmptyLogins(ops)
    ensures NonEmptyToken(Run(s, ops))
    decreases |ops|
  {
    if ops != [] {
      assert ops[0].LoginOp? && ops[0].reply.Ok? ==> ops[0].reply.data != "";
      var next := Apply(s, ops[0]);
      assert NonEmptyToken(next);
      assert forall i :: 0 <= i < |ops| - 1 ==> ops[1..][i] == ops[i + 1];
      RunKeepsNonEmptyToken(next, ops[1..]);
    }
  }

  /** Every state reachable from mounting the provider (restore followed by
      any operations) is determined and consistent; in particular an
      authenticated session's header is `Bearer` plus its token and an
      unauthenticated one holds no token and no bearer header. */
  lemma ReachableIsConsistent(persisted: Option<string>, ops: seq<Op>)
    ensures var s := Run(Restore(Boot(persisted)), ops);
            Inv(s) && s.authState.authenticated.Some? &&
            (s.authState.authenticated == Some(false) ==>
               s.authState.token == None && (s.header == None || s.header == Some(""))) &&
            (s.authState.authenticated == Some(true) ==>
               s.authState.token.Some? && s.header == Some(Bearer(s.authState.token.value)))
  {
    RunStaysDetermined(Restore(Boot(persisted)), ops);
    RunKeepsHeaderCleared(Restore(Boot(persisted)), ops);
  }

  /** A determined, consistent session with no empty token is recovered by
      restarting the process and restoring from the store. */
  lemma RestartRecovers(s: Snapshot)
    requires Inv(s) && NonEmptyToken(s) && s.authState.authenticated.Some?
    ensures Restore(Restart(s)).authState == s.authState
    ensures s.authState.authenticated == Some(true) ==> Restore(Restart(s)).header == s.header
  {
  }

  /** Restart recovery over any history whose logins received non-empty
      tokens. */
  lemma RecoveryAfterAnyHistory(persisted: Option<string>, ops: seq<Op>)
    requires NonEmptyLogins(ops)
    ensures var s := Run(Restore(Boot(persisted)), ops);
            Restore(Restart(s)).authState == s.authState &&
            (s.authState.authenticated == Some(true) ==> Restore(Restart(s)).header == s.header)
  {
    var start := Restore(Boot(persisted));
    RunStaysDetermined(start, ops);
    RunKeepsNonEmptyToken(start, ops);
    RestartRecovers(Run(start, ops));
  }

  /** The server's token is taken as is: a login that receives `""` reports
      an authenticated session, which a restart then restores as
      unauthenticated, because `""` is falsy. */
  lemma EmptyTokenNotRecovered(persisted: Option<string>)
    ensures var s := Login(Restore(Boot(persisted)), Ok("")).0;
            s.authState == Authenticated("") &&
            Restore(Restart(s)).authState == Unauthenticated
  {
  }

  /** The same gap when the provider is mounted again in the same process:
      the header is process-wide and survives, so after a login that
      received `""` the remounted session is unauthenticated yet still sends
      the header `"Bearer "`. */
  lemma EmptyTokenStaleHeaderOnRemount(persisted: Option<string>)
    ensures var s := Login(Restore(Boot(persisted)), Ok("")).0;
            var remounted := Restore(s.(authState := Unknown));
            remounted.authState == Unauthenticated &&
            remounted.header == Some(Bearer("")) &&
            !HeaderCleared(remounted)
  {
  }

  /** A failed login leaves every piece of state as it was. */
  lemma FailedLoginChangesNothing(s: Snapshot, msg: string)
    ensures Login(s, Rejected(msg)) == (s, Error(msg))
  {
  }

  /** Re-login overwrites: the result of a successful login does not depend
      on the state before it. */
  lemma LoginOverwrites(s1: Snapshot, s2: Snapshot, t: string)
    ensures Login(s1, Ok(t)).0 == Login(s2, Ok(t)).0
  {
  }

  /** Logout twice is logout once, and its result does not depend on the
      state before it. */
  lemma LogoutIdempotent(s: Snapshot)
    ensures Logout(Logout(s)) == Logout(s)
    ensures Logout(s) == Snapshot(Unauthenticated, None, Some(""))
  {
  }

  /** Login, then logout, then a restart: the session is unauthenticated and
      the store is empty, whatever happened before. */
  lemma {:induction false} RoundTrip(persisted: Option<string>, ops: seq<Op>, t: string)
    ensures var s := Run(Restore(Boot(persisted)), ops + [LoginOp(Ok(t)), LogoutOp]);
            s.store == None && Restore(Restart(s)).authState == Unauthenticated &&
            Restore(Restart(s)).store == None
  {
    var start := Restore(Boot(persisted));
    RunAppend(start, ops, [LoginOp(Ok(t)), LogoutOp]);
    var mid := Run(start, ops);
    var signedIn := Apply(mid, LoginOp(Ok(t)));
    assert [LoginOp(Ok(t)), LogoutOp][1..] == [LogoutOp];
    assert [LogoutOp][1..] == [];
    assert Run(signedIn, [LogoutOp]) == Run(Logout(signedIn), []);
    assert Run(mid, [LoginOp(Ok(t)), LogoutOp]) == Run(signedIn, [LogoutOp]);
  }
}
