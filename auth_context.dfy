/**
 * The session manager (`AuthProvider`): who is logged in, whether the
 * persisted session has been looked at yet, and the two `localStorage`
 * entries that carry the session across page loads.
 */
module AuthContext {
  import opened Wrappers
  import opened UserJson
  import Api
  import Browser

  const TOKEN_KEY := "token"
  const USER_KEY := "user"

  /** What the authentication endpoints return on success. */
  datatype AuthData = AuthData(token: string, user: UserRef)

  /** JavaScript truthiness of what `getItem` returns: `null` and `""` are both falsy. */
  predicate Truthy(v: Option<string>)
  {
    v.Some? && v.value != ""
  }

  function Lookup(entries: map<string, string>, key: string): Option<string>
  {
    if key in entries then Some(entries[key]) else None
  }

  /** What the initializing effect makes of the persisted entries. */
  datatype Restore =
    | NoSession          // an entry is missing or empty: the user is left as it is
    | Session(u: UserRef) // both entries present: the stored user is restored
    | ParseThrows        // both present, but Parse fails on the user text: where JSON.parse
                         // throws, and also on JSON other than what Stringify writes

  function RestoreSession(entries: map<string, string>): Restore
  {
    var token := Lookup(entries, TOKEN_KEY);
    var userJson := Lookup(entries, USER_KEY);
    if Truthy(token) && Truthy(userJson) then
      match Parse(userJson.value)
      case Some(u) => Session(u)
      case None => ParseThrows
    else
      NoSession
  }

  /** The entries after a successful login or signup has written both. */
  function StoreSession(entries: map<string, string>, data: AuthData): map<string, string>
  {
    entries[TOKEN_KEY := data.token][USER_KEY := Stringify(data.user)]
  }

  /** The entries after logout has removed both. */
  function ClearSession(entries: map<string, string>): map<string, string>
  {
    entries - {TOKEN_KEY, USER_KEY}
  }

  class AuthProvider {
    var user: Option<UserRef>
    var loading: bool
    const storage: Browser.LocalStorage
    const api: Api.Client

    /** Mounting the provider: no user yet, and loading until the effect has run. */
    constructor(storage: Browser.LocalStorage, api: Api.Client)
      ensures user == None && loading
      ensures this.storage == storage && this.api == api
    {
      user := None;
      loading := true;
      this.storage := storage;
      this.api := api;
    }

    /**
     * The mount effect. It sets the user only when both entries are present and
     * non-empty, then clears `loading`. When JSON.parse throws, the effect stops
     * there and `loading` stays true (`completed` is false).
     */
    method Initialize() returns (completed: bool)
      modifies this
      ensures completed <==> !RestoreSession(storage.entries).ParseThrows?
      ensures completed ==> !loading
      ensures !completed ==> loading == old(loading)
      ensures RestoreSession(storage.entries).Session? ==> user == Some(RestoreSession(storage.entries).u)
      ensures !RestoreSession(storage.entries).Session? ==> user == old(user)
    {
      var token := storage.GetItem(TOKEN_KEY);
      var userJson := storage.GetItem(USER_KEY);
      if Truthy(token) && Truthy(userJson) {
        var parsed := Parse(userJson.value);
        if parsed.None? {
          return false;
        }
        user := parsed;
      }
      loading := false;
      completed := true;
    }

    /** Writes both entries and then sets the user: the success tail shared by login and signup. */
    method CommitSession(data: AuthData)
      modifies this, storage
      ensures storage.entries == StoreSession(old(storage.entries), data)
      ensures user == Some(data.user) && loading == old(loading)
    {
      storage.SetItem(TOKEN_KEY, data.token);
      storage.SetItem(USER_KEY, Stringify(data.user));
      user := Some(data.user);
    }

    /**
     * `login(email, password)`: posts the credentials; only when the request
     * resolves are the entries written and the user set. A rejected request
     * propagates (`ok` is false) with nothing changed.
     */
    method Login(email: string, password: string, reply: Api.Reply<AuthData>) returns (ok: bool)
      modifies this, storage, api
      ensures api.log == old(api.log) + [Api.Post("/auth/login", Api.Credentials(email, password))]
      ensures ok <==> reply.Ok?
      ensures ok ==> storage.entries == StoreSession(old(storage.entries), reply.data) && user == Some(reply.data.user)
      ensures !ok ==> storage.entries == old(storage.entries) && user == old(user)
      ensures loading == old(loading)
    {
      api.Send(Api.Post("/auth/login", Api.Credentials(email, password)));
      if reply.Failed? {
        return false;
      }
      CommitSession(reply.data);
      ok := true;
    }

    /** `signup(name, email, password)`: as Login, against the signup endpoint. */
    method Signup(name: string, email: string, password: string, reply: Api.Reply<AuthData>) returns (ok: bool)
      modifies this, storage, api
      ensures api.log == old(api.log) + [Api.Post("/auth/signup", Api.Registration(name, email, password))]
      ensures ok <==> reply.Ok?
      ensures ok ==> storage.entries == StoreSession(old(storage.entries), reply.data) && user == Some(reply.data.user)
      ensures !ok ==> storage.entries == old(storage.entries) && user == old(user)
      ensures loading == old(loading)
    {
      api.Send(Api.Post("/auth/signup", Api.Registration(name, email, password)));
      if reply.Failed? {
        return false;
      }
      CommitSession(reply.data);
      ok := true;
    }

    /** `logout()`: removes both entries and clears the user; it issues no request. */
    method Logout()
      modifies this, storage
      ensures storage.entries == ClearSession(old(storage.entries))
      ensures user == None && loading == old(loading)
      ensures unchanged(api)
    {
      storage.RemoveItem(TOKEN_KEY);
      storage.RemoveItem(USER_KEY);
      user := None;
    }
  }

  /**
   * A session stored by login or signup is what the next page load restores,
   * unless the server's token was empty: then the token entry reads as falsy and
   * nothing is restored.
   */
  lemma StoredSessionIsRestored(entries: map<string, string>, data: AuthData)
    ensures RestoreSession(StoreSession(entries, data)) == if data.token == "" then NoSession else Session(data.user)
  {
    ParseStringify(data.user);
  }

  /** A restored user is one whose stored text is exactly Stringify of it, next to a non-empty token. */
  lemma RestoredSessionWasStored(entries: map<string, string>, u: UserRef)
    requires RestoreSession(entries) == Session(u)
    ensures TOKEN_KEY in entries && entries[TOKEN_KEY] != ""
    ensures USER_KEY in entries && entries[USER_KEY] == Stringify(u)
  {
    StringifyParse(entries[USER_KEY], u);
  }

  /** After logout, a reload restores nothing. */
  lemma ClearedSessionIsNotRestored(entries: map<string, string>)
    ensures RestoreSession(ClearSession(entries)) == NoSession
  {
  }

  /** Logging out twice leaves the same entries as logging out once. */
  lemma ClearSessionIdempotent(entries: map<string, string>)
    ensures ClearSession(ClearSession(entries)) == ClearSession(entries)
  {
  }

  /** Storing and clearing a session touch no entry other than `'token'` and `'user'`. */
  lemma OtherEntriesUntouched(entries: map<string, string>, data: AuthData, key: string)
    requires key != TOKEN_KEY && key != USER_KEY
    ensures Lookup(StoreSession(entries, data), key) == Lookup(entries, key)
    ensures Lookup(ClearSession(entries), key) == Lookup(entries, key)
  {
  }

  /** Storing a session leaves both entries present and non-empty apart from an empty token. */
  lemma StoredEntriesPresent(entries: map<string, string>, data: AuthData)
    ensures Lookup(StoreSession(entries, data), TOKEN_KEY) == Some(data.token)
    ensures Truthy(Lookup(StoreSession(entries, data), USER_KEY))
  {
  }

  /**
   * Login, then a page reload on the same storage: the new provider's effect
   * restores the user the login set.
   */
  method LoginThenReload(storage: Browser.LocalStorage, api: Api.Client, email: string, password: string, data: AuthData)
    returns (session: AuthProvider, reloaded: AuthProvider)
    requires data.token != ""
    modifies storage, api
    ensures session.user == Some(data.user)
    ensures reloaded.user == session.user && !reloaded.loading
  {
    session := new AuthProvider(storage, api);
    var _ := session.Initialize();
    var ok := session.Login(email, password, Api.Ok(data));
    reloaded := new AuthProvider(storage, api);
    StoredSessionIsRestored(old(storage.entries), data);
    var completed := reloaded.Initialize();
  }
}
