/**
 * The session state of the app (src/AuthContext.js): the signed-in user,
 * the `loading` flag of the first render, and the browser's local storage,
 * which keeps the session across reloads under the keys "token" and "user".
 *
 * `JSON.parse` and `JSON.stringify` are supplied as a `JsonCodec` value;
 * navigation is recorded as the last path navigated to.
 */
module AuthContext {
  import opened Wrappers

  /** The signed-in user as the backend describes it. */
  datatype User = User(id: int, role: string, storeId: Option<int>)

  /**
   * `JSON.stringify` for users, and `JSON.parse` read back as a user;
   * `parse` answers `None` where `JSON.parse` throws.
   */
  datatype JsonCodec = JsonCodec(stringify: User -> string, parse: string -> Option<User>)

  /** Serialising a user gives non-empty text that parses back to the same user. */
  ghost predicate JsonLaws(json: JsonCodec) {
    forall u :: json.stringify(u) != "" && json.parse(json.stringify(u)) == Some(u)
  }

  const TokenKey := "token"
  const UserKey := "user"
  const AuthPath := "/auth"
  const AdminPath := "/admin"
  const HomePath := "/"

  /** `localStorage`: a string-to-string store shared by the whole page. */
  class LocalStorage {
    var items: map<string, string>

    constructor(items: map<string, string>)
      ensures this.items == items
    {
      this.items := items;
    }

    /** `getItem`: the stored text, or `None` (`null`) when the key is absent. */
    function GetItem(key: string): Option<string>
      reads this
    {
      if key in items then Some(items[key]) else None
    }

    method SetItem(key: string, value: string)
      modifies this
      ensures items == old(items)[key := value]
    {
      items := items[key := value];
    }

    method RemoveItem(key: string)
      modifies this
      ensures items == old(items) - {key}
    {
      items := items - {key};
    }

    method Clear()
      modifies this
      ensures items == map[]
    {
      items := map[];
    }
  }

  /** A stored value is truthy when present and not the empty string. */
  predicate Truthy(value: Option<string>) {
    value.Some? && value.value != ""
  }

  /** What the first render finds in storage. */
  datatype StoredSession = NoSession | Restored(user: User) | Unreadable

  /**
   * The session in `items`: none unless both "token" and "user" are truthy;
   * otherwise the parsed user, or `Unreadable` when the user text does not parse.
   */
  function SessionIn(items: map<string, string>, json: JsonCodec): StoredSession {
    if TokenKey in items && items[TokenKey] != "" && UserKey in items && items[UserKey] != "" then
      match json.parse(items[UserKey])
      case Some(u) => Restored(u)
      case None => Unreadable
    else NoSession
  }

  /** Where `login` navigates: "/admin" for admin and super-admin, "/" for any other role. */
  function LoginTarget(role: string): (path: string)
    ensures path == AdminPath <==> role == "admin" || role == "super-admin"
    ensures path != AdminPath ==> path == HomePath
  {
    if role == "admin" || role == "super-admin" then AdminPath else HomePath
  }

  /** The storage after `login(userData, token)`. */
  function LoginItems(items: map<string, string>, userData: User, token: string, json: JsonCodec): map<string, string> {
    items[TokenKey := token][UserKey := json.stringify(userData)]
  }

  /** The storage after `logout()`. */
  function LogoutItems(items: map<string, string>): map<string, string> {
    items - {TokenKey, UserKey}
  }

  /** After a login with a non-empty token, a reload restores exactly the user who logged in. */
  lemma LoginThenReloadRestoresUser(items: map<string, string>, userData: User, token: string, json: JsonCodec)
    requires JsonLaws(json)
    ensures token != "" ==> SessionIn(LoginItems(items, userData, token, json), json) == Restored(userData)
    ensures token == "" ==> SessionIn(LoginItems(items, userData, token, json), json) == NoSession
  {
    var after := LoginItems(items, userData, token, json);
    assert after[TokenKey] == token && after[UserKey] == json.stringify(userData);
  }

  /** After a logout, a reload finds no session; the other stored keys are kept. */
  lemma LogoutThenReloadFindsNoSession(items: map<string, string>, json: JsonCodec)
    ensures SessionIn(LogoutItems(items), json) == NoSession
    ensures forall key :: key != TokenKey && key != UserKey ==>
              (key in LogoutItems(items) <==> key in items)
              && (key in items ==> LogoutItems(items)[key] == items[key])
  {
  }

  /** Logging out twice leaves the same storage as logging out once. */
  lemma LogoutIsIdempotent(items: map<string, string>)
    ensures LogoutItems(LogoutItems(items)) == LogoutItems(items)
  {
  }

  /** The provider's state: the current user, the first-render flag and the last navigation. */
  class AuthProvider {
    var user: Option<User>
    var loading: bool
    var location: Option<string>
    const storage: LocalStorage
    const json: JsonCodec

    constructor(storage: LocalStorage, json: JsonCodec)
      ensures user == None && loading && location == None
      ensures this.storage == storage && this.json == json
    {
      user := None;
      loading := true;
      location := None;
      this.storage := storage;
      this.json := json;
    }

    /**
     * The first-render effect: restores the stored user when both "token"
     * and "user" are stored and the user text parses, clears the whole
     * storage when it does not parse, and ends the loading state on every path.
     */
    method InitialLoad()
      modifies this, storage
      ensures !loading && location == old(location)
      ensures match SessionIn(old(storage.items), json)
              case NoSession => user == old(user) && storage.items == old(storage.items)
              case Restored(u) => user == Some(u) && storage.items == old(storage.items)
              case Unreadable => user == old(user) && storage.items == map[]
    {
      var storedToken := storage.GetItem(TokenKey);
      var storedUser := storage.GetItem(UserKey);
      if Truthy(storedToken) && Truthy(storedUser) {
        var parsedUser := json.parse(storedUser.value);
        if parsedUser.Some? {
          user := parsedUser;
        } else {
          storage.Clear();
        }
      }
      loading := false;
    }

    /**
     * Stores the token and the serialised user, makes `userData` the current
     * user, and navigates to the administration pages for administrators and
     * to the home page for everyone else.
     */
    method Login(userData: User, token: string)
      modifies this, storage
      ensures storage.items == LoginItems(old(storage.items), userData, token, json)
      ensures user == Some(userData) && location == Some(LoginTarget(userData.role))
      ensures loading == old(loading)
    {
      storage.SetItem(TokenKey, token);
      storage.SetItem(UserKey, json.stringify(userData));
      user := Some(userData);
      if userData.role == "admin" || userData.role == "super-admin" {
        location := Some(AdminPath);
      } else {
        location := Some(HomePath);
      }
    }

    /** Removes the stored session, forgets the user and navigates to the sign-in page. */
    method Logout()
      modifies this, storage
      ensures storage.items == LogoutItems(old(storage.items))
      ensures user == None && location == Some(AuthPath)
      ensures loading == old(loading)
    {
      storage.RemoveItem(TokenKey);
      storage.RemoveItem(UserKey);
      user := None;
      location := Some(AuthPath);
    }
  }
}
