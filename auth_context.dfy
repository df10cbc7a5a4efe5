/**
 * The placeholder session of psiagram/context/AuthContext.tsx: a `user`
 * field and the persisted key-value store. `login` fabricates a user and
 * stores its token under "token", `logout` forgets both, and `loadUser`, run
 * once when the provider starts, rebuilds a user from a stored token.
 */
module AuthContext {
  import opened Wrappers

  const TokenKey: string := "token"
  const FakeToken: string := "fake-token-123"
  const FakeUserId: int := 1
  /** The e-mail address `loadUser` gives every restored user. */
  const RestoredEmail: string := "test@example.com"

  datatype User = User(id: int, email: string, token: string)

  /** The persisted store; it outlives any one provider. */
  class KeyValueStore {
    var entries: map<string, string>

    constructor (entries: map<string, string>)
      ensures this.entries == entries
    {
      this.entries := entries;
    }
  }

  /** The stored token as `loadUser` accepts it: present and non-empty. */
  function StoredToken(entries: map<string, string>): (token: Option<string>)
    ensures token.Some? <==> TokenKey in entries && entries[TokenKey] != ""
    ensures token.Some? ==> token.value == entries[TokenKey]
  {
    var stored := if TokenKey in entries then Some(entries[TokenKey]) else None;
    if Truthy(stored) then stored else None
  }

  /** The user `loadUser` leaves behind, from the stored entries and the current user. */
  function RestoredUser(entries: map<string, string>, current: Option<User>): (u: Option<User>)
    ensures StoredToken(entries).None? ==> u == current
    ensures StoredToken(entries).Some? ==>
      u == Some(User(FakeUserId, RestoredEmail, StoredToken(entries).value))
  {
    match StoredToken(entries)
    case None => current
    case Some(t) => Some(User(FakeUserId, RestoredEmail, t))
  }

  /**
   * After a login, whoever starts next finds a user with the login's token,
   * though with the fixed restored e-mail address rather than the one used
   * to log in.
   */
  lemma LoginThenRestore(entries: map<string, string>, current: Option<User>)
    ensures RestoredUser(entries[TokenKey := FakeToken], current) == Some(User(FakeUserId, RestoredEmail, FakeToken))
  {
  }

  /** After a logout, `loadUser` changes nothing: a fresh provider stays without a user. */
  lemma LogoutThenRestore(entries: map<string, string>, current: Option<User>)
    ensures RestoredUser(entries - {TokenKey}, current) == current
  {
  }

  class AuthProvider {
    var user: Option<User>
    const store: KeyValueStore

    /** A signed-in user always carries a non-empty token. */
    ghost predicate Valid()
      reads this
    {
      user.Some? ==> user.value.token != ""
    }

    /** A provider starts with no user over the persisted store. */
    constructor (store: KeyValueStore)
      ensures Valid() && user == None && this.store == store
      ensures !IsAuthenticated()
    {
      this.store := store;
      user := None;
    }

    /** `isAuthenticated = !!user`: a user object is always truthy, null never. */
    predicate IsAuthenticated(): (authenticated: bool)
      reads this
      ensures authenticated <==> user != None
      ensures authenticated && Valid() ==> user.value.token != ""
    {
      user.Some?
    }

    /** `login`: the password is ignored, the user is fabricated and its token stored. */
    method Login(email: string, password: string)
      requires Valid()
      modifies this, store
      ensures Valid()
      ensures user == Some(User(FakeUserId, email, FakeToken)) && IsAuthenticated()
      ensures store.entries == old(store.entries)[TokenKey := FakeToken]
    {
      var fakeUser := User(FakeUserId, email, FakeToken);
      user := Some(fakeUser);
      store.entries := store.entries[TokenKey := fakeUser.token];
    }

    /** `logout`: no user, and the "token" entry, and only it, removed. */
    method Logout()
      requires Valid()
      modifies this, store
      ensures Valid()
      ensures user == None && !IsAuthenticated()
      ensures store.entries == old(store.entries) - {TokenKey}
    {
      user := None;
      store.entries := store.entries - {TokenKey};
    }

    /** `loadUser`: with a non-empty stored token, a user carrying it; otherwise no change. */
    method LoadUser()
      requires Valid()
      modifies this
      ensures Valid()
      ensures user == RestoredUser(store.entries, old(user))
      ensures IsAuthenticated() <==> old(IsAuthenticated()) || StoredToken(store.entries).Some?
    {
      var token := if TokenKey in store.entries then Some(store.entries[TokenKey]) else None;
      if !Truthy(token) {
        return;
      }
      user := Some(User(FakeUserId, RestoredEmail, token.value));
    }
  }

  /**
   * A login followed by a restart: the next provider, over the same store,
   * comes up authenticated with the login's token.
   */
  method RestartAfterLogin(entries: map<string, string>, email: string, password: string)
    returns (restored: Option<User>)
    ensures restored == Some(User(FakeUserId, RestoredEmail, FakeToken))
  {
    var store := new KeyValueStore(entries);
    var first := new AuthProvider(store);
    first.Login(email, password);
    var next := new AuthProvider(store);
    next.LoadUser();
    restored := next.user;
  }

  /**
   * A logout followed by a restart: the next provider, over the same store,
   * comes up unauthenticated, whatever the store held before.
   */
  method RestartAfterLogout(entries: map<string, string>, email: string, password: string)
    returns (restored: Option<User>)
    ensures restored == None
  {
    var store := new KeyValueStore(entries);
    var first := new AuthProvider(store);
    first.Login(email, password);
    first.Logout();
    var next := new AuthProvider(store);
    next.LoadUser();
    restored := next.user;
  }
}
