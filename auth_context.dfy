/** The authentication state of src/context/AuthContext.tsx: `user`,
    `loading` and `error`, and the handlers that update them around the
    calls of src/api/authApi.ts. The server's answers are parameters; the
    token those calls keep in `localStorage` under `auth_token` is modelled,
    since it decides whether a call is made at all. */
module AuthContext {
  import opened Strings
  import opened Types
  import opened BrowserStorage

  /** The single key src/api/authApi.ts stores the token under. */
  const TokenKey := "auth_token"
  const NotAuthenticated := "Not authenticated"

  /** Whether authApi finds a usable token: present and non-empty. */
  predicate HasToken(items: map<string, string>)
  {
    TokenKey in items && items[TokenKey] != ""
  }

  /** What a call that needs the token settles to: `Not authenticated`
      without one, the server's answer otherwise. */
  function Guarded<T>(items: map<string, string>, server: Settled<T>): (r: Settled<T>)
    ensures !HasToken(items) ==> r == Rejected(NotAuthenticated)
    ensures HasToken(items) ==> r == server
  {
    if HasToken(items) then server else Rejected(NotAuthenticated)
  }

  /** `getCurrentUser()`: no user without a token; otherwise the user the
      server sends, or none for any failure (it never throws). */
  function CurrentUser(items: map<string, string>, fetched: Option<User>): (user: Option<User>)
    ensures !HasToken(items) ==> user == None
    ensures HasToken(items) ==> user == fetched
  {
    if HasToken(items) then fetched else None
  }

  class AuthProvider {
    var user: Option<User>
    var loading: bool
    var error: Option<string>
    const storage: LocalStorage

    /** The first render: no user yet, loading, no error. */
    constructor (storage: LocalStorage)
      ensures user == None && loading && error == None && this.storage == storage
    {
      user := None;
      loading := true;
      error := None;
      this.storage := storage;
    }

    /** `isAuthenticated`: there is a user. */
    function IsAuthenticated(): (signedIn: bool)
      reads this
      ensures signedIn <==> user.Some?
    {
      user.Some?
    }

    /** The check on mount: the user becomes whatever `getCurrentUser`
        gives, which is no user when no token is stored. */
    method CheckAuthentication(fetched: Option<User>)
      modifies this
      ensures user == CurrentUser(storage.items, fetched)
      ensures !HasToken(storage.items) ==> !IsAuthenticated()
      ensures error == old(error) && !loading
    {
      loading := true;
      var token := storage.GetItem(TokenKey);
      if token == None || token == Some("") {
        user := None;
      } else {
        user := fetched;
      }
      loading := false;
    }

    /** `login` and `register` share this: on success authApi stores the
        token and the user is set; on failure the message becomes the error
        and is thrown again. */
    method SignIn(outcome: Settled<AuthResponse>) returns (rethrown: Option<string>)
      modifies this, storage
      ensures outcome.Resolved? ==>
                && user == Some(outcome.value.user) && error == None && rethrown == None
                && storage.items == old(storage.items)[TokenKey := outcome.value.token]
      ensures outcome.Rejected? ==>
                && user == old(user) && error == Some(outcome.message) && rethrown == Some(outcome.message)
                && storage.items == old(storage.items)
      ensures !loading
    {
      loading := true;
      error := None;
      match outcome {
        case Resolved(response) =>
          storage.SetItem(TokenKey, response.token);
          user := Some(response.user);
          rethrown := None;
        case Rejected(message) =>
          error := Some(message);
          rethrown := Some(message);
      }
      loading := false;
    }

    method Login(outcome: Settled<AuthResponse>) returns (rethrown: Option<string>)
      modifies this, storage
      ensures outcome.Resolved? ==>
                && user == Some(outcome.value.user) && IsAuthenticated() && error == None && rethrown == None
                && storage.items == old(storage.items)[TokenKey := outcome.value.token]
      ensures outcome.Rejected? ==>
                && user == old(user) && error == Some(outcome.message) && rethrown == Some(outcome.message)
                && storage.items == old(storage.items)
      ensures !loading
    {
      rethrown := SignIn(outcome);
    }

    method Register(outcome: Settled<AuthResponse>) returns (rethrown: Option<string>)
      modifies this, storage
      ensures outcome.Resolved? ==>
                && user == Some(outcome.value.user) && IsAuthenticated() && error == None && rethrown == None
                && storage.items == old(storage.items)[TokenKey := outcome.value.token]
      ensures outcome.Rejected? ==>
                && user == old(user) && error == Some(outcome.message) && rethrown == Some(outcome.message)
                && storage.items == old(storage.items)
      ensures !loading
    {
      rethrown := SignIn(outcome);
    }

    /** `logout`: the token is removed (and nothing else), the user is
        gone. */
    method Logout()
      modifies this, storage
      ensures user == None && !IsAuthenticated()
      ensures storage.items == old(storage.items) - {TokenKey}
      ensures loading == old(loading) && error == old(error)
    {
      storage.RemoveItem(TokenKey);
      user := None;
    }

    /** `updateProfile`: the user becomes the one the server returns; a
        failure, including a missing token, leaves the user and rethrows. */
    method UpdateProfile(server: Settled<User>) returns (rethrown: Option<string>)
      modifies this
      ensures var outcome := Guarded(storage.items, server);
              && (outcome.Resolved? ==> user == Some(outcome.value) && error == None && rethrown == None)
              && (outcome.Rejected? ==>
                    user == old(user) && error == Some(outcome.message) && rethrown == Some(outcome.message))
      ensures !HasToken(storage.items) ==> rethrown == Some(NotAuthenticated) && user == old(user)
      ensures !loading
    {
      loading := true;
      error := None;
      var token := storage.GetItem(TokenKey);
      var outcome := if token == None || token == Some("") then Rejected(NotAuthenticated) else server;
      match outcome {
        case Resolved(updated) =>
          user := Some(updated);
          rethrown := None;
        case Rejected(message) =>
          error := Some(message);
          rethrown := Some(message);
      }
      loading := false;
    }

    /** `resetPassword`: never touches the user; a failure, including a
        missing token, becomes the error and is thrown again. */
    method ResetPassword(server: Settled<()>) returns (rethrown: Option<string>)
      modifies this
      ensures user == old(user)
      ensures var outcome := Guarded(storage.items, server);
              && (outcome.Resolved? ==> error == None && rethrown == None)
              && (outcome.Rejected? ==> error == Some(outcome.message) && rethrown == Some(outcome.message))
      ensures !loading
    {
      loading := true;
      error := None;
      var token := storage.GetItem(TokenKey);
      var outcome := if token == None || token == Some("") then Rejected(NotAuthenticated) else server;
      if outcome.Rejected? {
        error := Some(outcome.message);
        rethrown := Some(outcome.message);
      } else {
        rethrown := None;
      }
      loading := false;
    }
  }
}
