/** The session reducer: a user record and a token, initialised from the
    key-value store, with `login` and `logout` transitions that write through
    to the store. */
module Auth {
  import opened Base
  import opened Json
  import opened Storage

  const UserKey := "user"
  const TokenKey := "token"

  /** The payload of a successful login or registration: the response body. */
  datatype LoginPayload = LoginPayload(user: Option<User>, token: string)

  /** The text `JSON.parse` receives for the user: `getItem` returns null for
      an absent key, which parses to null. */
  function StoredUserText(items: map<string, string>): string {
    if UserKey in items then items[UserKey] else "null"
  }

  /** `initialState`: the user parsed from the store (a parse failure throws,
      so the store cannot be built) and the token when it is truthy. */
  function InitialState(items: map<string, string>): Outcome<Session> {
    match Parse(StoredUserText(items))
    case Failure(e) => Failure(e)
    case Success(u) =>
      Success(Session(u, if Truthy(Lookup(items, TokenKey)) then Lookup(items, TokenKey) else None))
  }

  /** The store after the two writes of `login`. */
  function LoginStore(items: map<string, string>, p: LoginPayload): map<string, string> {
    items[UserKey := Stringify(p.user)][TokenKey := p.token]
  }

  /** The store after the two removals of `logout`. */
  function LogoutStore(items: map<string, string>): map<string, string> {
    items - {UserKey, TokenKey}
  }

  class AuthSlice {
    const storage: LocalStorage
    var user: Option<User>
    var token: Option<string>

    function State(): Session
      reads this
    {
      Session(user, token)
    }

    /** The store is created at start-up from what the key-value store holds;
        when the persisted user text does not parse, start-up throws. */
    constructor (storage: LocalStorage)
      requires InitialState(storage.items).Success?
      ensures this.storage == storage
      ensures State() == InitialState(storage.items).payload
    {
      this.storage := storage;
      var init := InitialState(storage.items).payload;
      user := init.user;
      token := init.token;
    }

    method Login(p: LoginPayload)
      modifies this, storage
      ensures State() == Session(p.user, Some(p.token))
      ensures storage.items == LoginStore(old(storage.items), p)
    {
      user := p.user;
      token := Some(p.token);
      storage.SetItem(UserKey, Stringify(p.user));
      storage.SetItem(TokenKey, p.token);
    }

    method Logout()
      modifies this, storage
      ensures State() == Session(None, None)
      ensures storage.items == LogoutStore(old(storage.items))
    {
      user := None;
      token := None;
      storage.RemoveItem(UserKey);
      storage.RemoveItem(TokenKey);
      assert storage.items == old(storage.items) - {UserKey} - {TokenKey};
    }
  }

  /** After `login`, the store maps "user" to the serialized user and "token"
      to the token, and every other key is as it was. */
  lemma LoginWritesThrough(items: map<string, string>, p: LoginPayload)
    ensures LoginStore(items, p)[UserKey] == Stringify(p.user)
    ensures LoginStore(items, p)[TokenKey] == p.token
    ensures LoginStore(items, p).Keys == items.Keys + {UserKey, TokenKey}
    ensures forall k :: k in items && k != UserKey && k != TokenKey ==> LoginStore(items, p)[k] == items[k]
  {
  }

  /** After `logout`, neither key is stored, and every other key is as it was. */
  lemma LogoutClears(items: map<string, string>)
    ensures UserKey !in LogoutStore(items) && TokenKey !in LogoutStore(items)
    ensures LogoutStore(items).Keys == items.Keys - {UserKey, TokenKey}
    ensures forall k :: k in LogoutStore(items) ==> LogoutStore(items)[k] == items[k]
  {
  }

  /** Logging out twice leaves the same store as logging out once. */
  lemma LogoutIdempotent(items: map<string, string>)
    ensures LogoutStore(LogoutStore(items)) == LogoutStore(items)
  {
  }

  /** Writing the same login twice (the pages write, then dispatch `login`,
      which writes again) leaves the store of a single write. */
  lemma LoginStoreIdempotent(items: map<string, string>, p: LoginPayload)
    ensures LoginStore(LoginStore(items, p), p) == LoginStore(items, p)
  {
  }

  /** Reload after login: re-initialising from the store written by `login`
      gives back the logged-in user, and the token when it is non-empty. */
  lemma ReloadAfterLogin(items: map<string, string>, p: LoginPayload)
    ensures InitialState(LoginStore(items, p))
         == Success(Session(p.user, if p.token != "" then Some(p.token) else None))
  {
    var m := LoginStore(items, p);
    assert StoredUserText(m) == Stringify(p.user);
    ParseStringify(p.user);
    assert Lookup(m, TokenKey) == Some(p.token);
  }

  /** Reload after logout: re-initialising gives the logged-out session. */
  lemma ReloadAfterLogout(items: map<string, string>)
    ensures InitialState(LogoutStore(items)) == Success(Session(None, None))
  {
    var m := LogoutStore(items);
    assert StoredUserText(m) == "null";
    assert Lookup(m, TokenKey) == None;
  }

  /** The token is null after initialisation exactly when the stored token is
      absent or empty, whatever the stored user is. */
  lemma InitialTokenIndependent(items: map<string, string>)
    requires InitialState(items).Success?
    ensures InitialState(items).payload.token == None <==> (TokenKey !in items || items[TokenKey] == "")
    ensures InitialState(items).payload.token != None ==> InitialState(items).payload.token == Some(items[TokenKey])
  {
  }

  /** The user text is parsed unguarded: a stored user that does not parse
      makes initialisation fail, whatever token is stored. */
  lemma MalformedUserFails(items: map<string, string>)
    requires UserKey in items && Parse(items[UserKey]).Failure?
    ensures InitialState(items).Failure?
  {
  }

  lemma TruncatedUserFails()
    ensures InitialState(map[UserKey := "{"]).Failure?
  {
    assert Expect(IdPrefix, "{") == None;
  }

  /** Initialisation reads the two keys independently: a stored token without
      a stored user gives a session with a token and no user. */
  lemma TokenWithoutUser()
    ensures InitialState(map[TokenKey := "t"]) == Success(Session(None, Some("t")))
  {
    assert StoredUserText(map[TokenKey := "t"]) == "null";
  }
}
