/** The session hook: the signed-in user, the `loading` flag of the start-up
    check, and the browser's session-scoped token store, which is modelled as
    an optional string. Its two HTTP calls are inputs. */
module Auth {
  import opened Outcomes

  datatype User = User(id: string, name: string, email: string, role: string)

  /** The calls the hook makes, in order. A profile fetch carries the bearer
      token the HTTP client attaches from the store at that moment. */
  datatype ApiCall =
    | LoginCall(email: string, password: string, expectedRole: Option<string>)
    | ProfileCall(bearer: Option<string>)

  /** The client attaches `Authorization` only for a stored, non-empty token. */
  function Bearer(store: Option<string>): (b: Option<string>)
    ensures b.Some? <==> store.Some? && store.value != ""
    ensures b.Some? ==> b == store
  {
    if store.Some? && store.value != "" then store else None
  }

  class Session {
    var user: Option<User>
    var loading: bool
    var token: Option<string>

    /** A user is only ever set once a token is stored; every method keeps
        this. */
    predicate Valid()
      reads this
    {
      user.Some? ==> token.Some?
    }

    /** The hook's initial state, over whatever the store already holds. */
    constructor (stored: Option<string>)
      ensures Valid()
      ensures user == None && loading && token == stored
    {
      user, loading, token := None, true, stored;
    }

    /** The start-up effect, which runs once while `loading` is set and no
        user is known. Without a (non-empty) stored token it only clears
        `loading`, with no request. Otherwise it fetches the profile with
        that token: success sets the user, failure removes the token and
        leaves the user unset. `loading` ends false on every path, and a
        restored user's next request carries the bearer header. */
    method Bootstrap(profile: Response<User>) returns (calls: seq<ApiCall>)
      requires Valid() && loading && user == None
      modifies this
      ensures Valid() && !loading
      ensures Bearer(old(token)).None? ==> calls == [] && user == None && token == old(token)
      ensures Bearer(old(token)).Some? ==> calls == [ProfileCall(old(token))]
      ensures Bearer(old(token)).Some? && profile.Success? ==> user == Some(profile.value) && token == old(token)
      ensures Bearer(old(token)).Some? && profile.Failure? ==> user == None && token == None
      ensures user.Some? ==> Bearer(token).Some?
    {
      if token.None? || token.value == "" {
        loading := false;
        return [];
      }
      calls := [ProfileCall(Bearer(token))];
      match profile {
        case Success(me) => user := Some(me);
        case Failure(_) => token := None;
      }
      loading := false;
    }

    /** `login`. The credentials and the expected role go to the server
        unchecked. A rejected login stores nothing and leaves the user. A
        token that arrives is stored before the profile is fetched, so the
        fetch carries it; the fetched profile becomes the user whatever its
        role. A failed profile fetch leaves the new token stored. */
    method LogIn(email: string, password: string, expectedRole: Option<string>,
                 login: Response<string>, profile: Response<User>)
      returns (calls: seq<ApiCall>, result: Outcome)
      requires Valid()
      modifies this
      ensures Valid() && loading == old(loading)
      ensures login.Failure? ==>
        calls == [LoginCall(email, password, expectedRole)]
        && token == old(token) && user == old(user) && result == Failed(login.message)
      ensures login.Success? ==>
        token == Some(login.value)
        && calls == [LoginCall(email, password, expectedRole), ProfileCall(Bearer(Some(login.value)))]
      ensures login.Success? && profile.Success? ==> user == Some(profile.value) && result == Done
      ensures login.Success? && profile.Failure? ==> user == old(user) && result == Failed(profile.message)
    {
      calls := [LoginCall(email, password, expectedRole)];
      if login.Failure? {
        return calls, Failed(login.message);
      }
      token := Some(login.value);
      calls := calls + [ProfileCall(Bearer(token))];
      match profile {
        case Success(me) =>
          user := Some(me);
          result := Done;
        case Failure(m) =>
          result := Failed(m);
      }
    }

    /** `logout`: removes the token and the user; nothing else changes, so a
        second logout changes nothing more. */
    method LogOut()
      requires Valid()
      modifies this
      ensures Valid()
      ensures token == None && user == None && loading == old(loading)
    {
      token := None;
      user := None;
    }
  }

  /** After a logout, the next start-up finds no token, sends nothing and
      restores no session. */
  method LogoutThenRestart(s: Session, profile: Response<User>) returns (restored: Option<User>)
    requires s.Valid()
    modifies s
    ensures restored == None
  {
    s.LogOut();
    var next := new Session(s.token);
    var calls := next.Bootstrap(profile);
    assert calls == [];
    restored := next.user;
  }
}
