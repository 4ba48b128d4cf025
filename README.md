# Session lifecycle of `AuthProvider`, verified in Dafny

This project models the session manager of a mobile client
(`src/app/auth/AuthContext.tsx`): the `AuthProvider` component that restores
a bearer token from the secure store when it mounts (`loadToken`), and offers
`register`, `login` and `logout`. The operations drive three pieces of state:

- the in-memory `authState` record `{token: string | null, authenticated: boolean | null}`;
- the secure-store slot under the key `TOKEN_KEY` (`'token'`);
- the HTTP client's process-wide default `Authorization` header.

`wrappers.dfy` holds `Option`. `session_model.dfy` (module `SessionModel`)
states the lifecycle as pure functions on a `Snapshot` of the three pieces of
state, with the consistency invariant `Inv` and lemmas over arbitrary
histories of operations. `auth_context.dfy` (module `AuthContext`) holds the
class `AuthProvider` with fields `authState`, `store` and `header`, whose
methods overwrite them in the source's order and are proved to follow the
functions of `SessionModel`.

The store is an `Option<string>` (`None`: key absent). The header is an
`Option<string>` (`None`: never assigned; logout assigns `""`). Every HTTP
call is replaced by its reply, a parameter `HttpReply<T>`: `Ok(data)` for a
2xx answer, `Rejected(msg)` for an error answer whose body carries `msg`.
Each asynchronous operation is one atomic method.

An authenticated session is meant to hold a non-empty token, but the code
does not enforce this, and the model follows the code. `login` stores whatever `result.data.token` the server
sends, so a login that receives `""` yields `{token: "", authenticated: true}`.
After a restart, `loadToken` reads `""` back and, `""` being falsy, restores
an unauthenticated session (`SessionModel.EmptyTokenNotRecovered`). Restart
recovery is therefore proved for histories whose logins received non-empty
tokens (`SessionModel.RecoveryAfterAnyHistory`). The same happens when the
provider is mounted again in the same process: the header is process-wide,
so the remounted session is unauthenticated but still carries the header
`"Bearer "` (`SessionModel.EmptyTokenStaleHeaderOnRemount`).

## Model

| member | source | states |
|---|---|---|
| SessionModel.Boot | src/app/auth/AuthContext.tsx:31-37 | a provider mounted in a fresh process has `token` and `authenticated` null, the persisted store, no header, and satisfies the consistency invariant |
| SessionModel.Restore | src/app/auth/AuthContext.tsx:40-48 | the store is never written; the session ends determined, authenticated exactly when the stored value is truthy (present and not `""`); then state `{t, true}` and header `Bearer t`, otherwise `{null, false}` with the header untouched; the invariant holds afterwards from any state |
| SessionModel.Register | src/app/auth/AuthContext.tsx:52-58 | session, store and header are unchanged; success returns the response, failure returns `{error: true, msg}` with the server's message |
| SessionModel.Login | src/app/auth/AuthContext.tsx:60-72 | a 2xx reply with token `t` sets state `{t, true}`, header `Bearer t` and store `t` whatever the prior state; an error reply changes nothing and returns the server's message; the invariant is preserved, and a non-empty token is preserved when the server's token is non-empty |
| SessionModel.Logout | src/app/auth/AuthContext.tsx:74-79 | from any state: store key deleted, header `""`, state `{null, false}`; the invariant holds, and a later restart restores an unauthenticated session |
| SessionModel.Restart | src/app/auth/AuthContext.tsx:31-37 | after a process restart the session is undetermined again and the header unset; only the persisted store survives |
| SessionModel.Apply | src/app/auth/AuthContext.tsx:52-79 | one user operation keeps the invariant, never leaves a bearer header on a session that is not authenticated, and never makes a determined `authenticated` null again |
| SessionModel.Run | src/app/auth/AuthContext.tsx:52-79 | any sequence of register, login and logout calls keeps the consistency invariant |
| SessionModel.WithoutRegisters | src/app/auth/AuthContext.tsx:52-58 | the history with register calls removed is no longer, keeps every login and logout of the original and contains no register call |
| SessionModel.RunAppend | src/app/auth/AuthContext.tsx:52-79 | running two histories in turn is running their concatenation |
| SessionModel.RunKeepsHeaderCleared | src/app/auth/AuthContext.tsx:52-79 | no sequence of register, login and logout calls leaves a bearer header on a session that is not authenticated: only a successful login sets one, and logout blanks it |
| SessionModel.RunStaysDetermined | src/app/auth/AuthContext.tsx:44-46 | once determined, `authenticated` is never set back to null by any sequence of operations |
| SessionModel.RegisterInvisible | src/app/auth/AuthContext.tsx:52-58 | every history ends in the same state as the history with its register calls removed |
| SessionModel.RunKeepsNonEmptyToken | src/app/auth/AuthContext.tsx:64 | the token never becomes `""` while the server hands out non-empty tokens |
| SessionModel.ReachableIsConsistent | src/app/auth/AuthContext.tsx:39-79 | after restore and any operations: `authenticated` is determined, `false` implies no token and a header that is unset or `""`, `true` implies a token whose `Bearer` form is the header and which the store holds |
| SessionModel.RestartRecovers | src/app/auth/AuthContext.tsx:41-47 | restart and restore give back the state of a consistent determined session without an empty token, and the header of an authenticated one |
| SessionModel.RecoveryAfterAnyHistory | src/app/auth/AuthContext.tsx:39-79 | after restore and any history whose logins received non-empty tokens, restart and restore yield the same `authState`, and the same header when authenticated |
| SessionModel.EmptyTokenNotRecovered | src/app/auth/AuthContext.tsx:42 | a login receiving `""` reports `{"", true}`, which restart and restore turn into `{null, false}` |
| SessionModel.EmptyTokenStaleHeaderOnRemount | src/app/auth/AuthContext.tsx:42-47 | after a login receiving `""`, a provider remounted in the same process restores `{null, false}` but keeps the header `"Bearer "` |
| SessionModel.FailedLoginChangesNothing | src/app/auth/AuthContext.tsx:60-71 | a failed login leaves state, header and store unchanged and returns the server's message |
| SessionModel.LoginOverwrites | src/app/auth/AuthContext.tsx:62-68 | the outcome of a successful login is independent of the state before it |
| SessionModel.LogoutIdempotent | src/app/auth/AuthContext.tsx:74-79 | logout twice equals logout once, and equals `{null, false}` with no stored token and header `""` from any state |
| SessionModel.RoundTrip | src/app/auth/AuthContext.tsx:39-79 | after any history, login then logout then restart: the store is empty and restore yields `{null, false}` |
| AuthContext.AuthProvider.constructor | src/app/auth/AuthContext.tsx:31-37 | the provider starts as `Boot(persisted)`: `authState` null/null and consistent |
| AuthContext.AuthProvider.LoadToken | src/app/auth/AuthContext.tsx:40-48 | the new state is `Restore` of the old one; `authenticated` becomes determined, the store is not written, the invariant holds |
| AuthContext.AuthProvider.Register | src/app/auth/AuthContext.tsx:52-58 | writes nothing; returns the response on success and `{error: true, msg}` on failure, as `SessionModel.Register` |
| AuthContext.AuthProvider.Login | src/app/auth/AuthContext.tsx:60-72 | the new state and result are those of `SessionModel.Login` on the old state; a failed login leaves all three fields as they were; the invariant is preserved |
| AuthContext.AuthProvider.Logout | src/app/auth/AuthContext.tsx:74-79 | the new state is `SessionModel.Logout` of the old one: store `None`, header `""`, state `{null, false}` |
| AuthContext.SessionLifecycle | src/app/auth/AuthContext.tsx:39-79 | a client of the class: mount, restore, login, logout, then restart and restore ends unauthenticated |

## Left out

- React plumbing: `createContext` with its throwing default operations, `useAuth`, the scheduling of `useEffect` and the JSX provider carry no session logic.
- The HTTP requests themselves and the URL built from `AUTH_URL`: the identity service's reply is a parameter of each operation; `email` and `password` are only passed through.
- Asynchrony: each operation is one atomic step, so overlapping `login` / `logout` calls and their interleavings are not modelled; nor is `loadToken`, which is started without being awaited, interleaving with a `login` that completes between its store read and its `setAuthState` (that login's state would be overwritten with `{null, false}` while store and header keep the token).
- Failures of the secure store: `setItemAsync` rejecting after state and header were already written inside `login`'s `try`, and rejected reads or deletes in `loadToken` and `logout`, are not modelled; the model does not claim these operations are atomic under such failures.
- A transport failure without `e.response`, which makes the `catch` blocks of `register` and `login` throw themselves, is not modelled: an error reply always carries a message.
- A non-string `result.data.token` (for example a missing field) is not modelled: the token is a string.
- The platform's confidentiality of the store and every other entry of the HTTP client's default headers are not modelled.
