/**
 * `AuthProvider` of src/app/auth/AuthContext.tsx as an object whose three
 * fields are overwritten step by step by the four operations, in the order
 * the source writes them. Each method is proved to follow the matching
 * function of module SessionModel, where the properties are proved.
 *
 * The HTTP calls are not made here: a method that would post to the
 * identity service takes the service's reply as a parameter.
 */
module AuthContext {
  import opened Wrappers
  import opened SessionModel

  class AuthProvider {
    /** The `authState` record handed to consumers. */
    var authState: AuthState
    /** The secure-store slot under `TokenKey`. */
    var store: Option<string>
    /** `axios.defaults.headers.common['Authorization']`. */
    var header: Option<string>

    /** The current state as a value. */
    function Current(): Snapshot
      reads this
    {
      Snapshot(authState, store, header)
    }

    /** The consistency invariant of module SessionModel. */
    ghost predicate Valid()
      reads this
    {
      Inv(Current())
    }

    /** Mounting the provider: `persisted` is what the store kept from an
        earlier run; the session starts undetermined. */
    constructor (persisted: Option<string>)
      ensures Current() == Boot(persisted)
      ensures authState == Unknown
      ensures Valid()
    {
      authState := Unknown;
      store := persisted;
      header := None;
    }

    /** `loadToken`, run once when the provider mounts. */
    method LoadToken()
      modifies this
      ensures Current() == Restore(old(Current()))
      ensures authState.authenticated.Some? && store == old(store)
      ensures Valid()
    {
      var token := store;
      if HasToken(token) {
        header := Some(Bearer(token.value));
        authState := Authenticated(token.value);
      } else {
        authState := Unauthenticated;
      }
    }

    /** `register(email, password)`: `reply` is the service's answer to the
        request carrying `email` and `password`. Writes nothing. */
    method Register<P>(email: string, password: string, reply: HttpReply<P>) returns (r: Outcome<P>)
      ensures (Current(), r) == SessionModel.Register(Current(), reply)
      ensures reply.Ok? ==> r == Returned(reply.data)
      ensures reply.Rejected? ==> r == Error(reply.msg)
    {
      match reply
      case Ok(response) =>
        r := Returned(response);
      case Rejected(msg) =>
        r := Error(msg);
    }

    /** `login(email, password)`: `reply` is the service's answer, carrying
        `result.data.token` on success. */
    method Login(email: string, password: string, reply: HttpReply<string>) returns (r: Outcome<()>)
      modifies this
      ensures (Current(), r) == SessionModel.Login(old(Current()), reply)
      ensures reply.Rejected? ==> Current() == old(Current())
      ensures old(Valid()) ==> Valid()
    {
      match reply
      case Rejected(msg) =>
        r := Error(msg);
      case Ok(token) =>
        authState := Authenticated(token);
        header := Some(Bearer(token));
        store := Some(token);
        r := Returned(());
    }

    /** `logout()`. */
    method Logout()
      modifies this
      ensures Current() == SessionModel.Logout(old(Current()))
      ensures authState == Unauthenticated && store == None && header == Some("")
      ensures Valid()
    {
      store := None;
      header := Some("");
      authState := Unauthenticated;
    }
  }

  /** A client of the class: mount, restore, log in, log out, restart. */
  method SessionLifecycle(persisted: Option<string>, t: string) returns (afterRestart: AuthState)
    ensures afterRestart == Unauthenticated
  {
    var provider := new AuthProvider(persisted);
    provider.LoadToken();
    var loggedIn := provider.Login("user@example.com", "secret", Ok(t));
    assert provider.authState == Authenticated(t);
    provider.Logout();
    var restarted := new AuthProvider(provider.store);
    restarted.LoadToken();
    afterRestart := restarted.authState;
  }
}
