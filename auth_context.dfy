// The authentication provider: the session restored from storage on start,
// login, logout and registration, each as a transition over the stored
// entries and the current user.

module AuthContext {
  import opened Base
  import opened Text
  import opened Storage
  import opened FeatureFlags

  const LoginPath := "/auth/login"
  const LogoutPath := "/auth/logout"

  /**
   * JSON.parse of a stored entry. The entries the client writes with
   * JSON.stringify parse back to their value; a plain string entry is
   * taken as text that is not JSON.
   */
  function ParsedItem(v: Value): Option<Json>
  {
    match v
    case Str(_) => None
    case IdList(ids) => Some(JArray(seq(|ids|, i requires 0 <= i < |ids| => JString(ids[i]))))
    case FlagMap(f) => Some(JObject(map k | k in f :: JBool(f[k])))
    case Serialized(j) => Some(j)
  }

  /** What the start-up effect finds under "user". */
  datatype Hydration = NoUser | Restored(user: Json) | Corrupt

  function HydrationOf(items: map<string, Value>): (h: Hydration)
    ensures h.NoUser? <==> UserKey !in items || items[UserKey] == Str("")
    ensures h.Restored? ==> UserKey in items && ParsedItem(items[UserKey]) == Some(h.user)
  {
    if UserKey !in items || items[UserKey] == Str("") then NoUser
    else match ParsedItem(items[UserKey])
      case Some(j) => Restored(j)
      case None => Corrupt
  }

  /** The store after start-up: an unreadable user entry wipes every entry. */
  function HydratedStore(items: map<string, Value>): (r: map<string, Value>)
    ensures HydrationOf(items).Corrupt? ==> r == map[]
    ensures !HydrationOf(items).Corrupt? ==> r == items
  {
    if HydrationOf(items).Corrupt? then map[] else items
  }

  /** Wiping storage on a corrupt user entry also drops the stored feature flags. */
  lemma CorruptUserDropsFlags(items: map<string, Value>)
    requires HydrationOf(items).Corrupt?
    ensures StoredFlags(HydratedStore(items)).None?
    ensures AllFlags(HydratedStore(items)) == Some(Defaults())
    ensures StoredFlags(items).Some? ==> StoredFlags(HydratedStore(items)) != StoredFlags(items)
  {
  }

  /** The login answer as the provider reads it. */
  datatype LoginResult = LoggedIn(data: Json) | LoginFailed(error: string)

  /** A login answer is accepted when it is a truthy body with a truthy `role`. */
  predicate AcceptedLogin(reply: Reply)
  {
    Succeeded(reply) && Truthy(reply.body) && Get(reply.body, "role").Some? &&
    Truthy(Get(reply.body, "role").value)
  }

  function LoginOutcome(reply: Reply): (r: LoginResult)
    ensures r.LoggedIn? <==> AcceptedLogin(reply)
    ensures r.LoggedIn? ==> r.data == reply.body
    ensures r.LoginFailed? ==> r.error != ""
    ensures r.LoginFailed? && Succeeded(reply) ==> r.error == "Login failed"
    ensures r.LoginFailed? && !Succeeded(reply) ==> r.error == FirstMessage(ErrorBody(reply), ["message", "error"], "Login failed")
  {
    if AcceptedLogin(reply) then LoggedIn(reply.body)
    else if Succeeded(reply) then LoginFailed("Login failed")
    else LoginFailed(FirstMessage(ErrorBody(reply), ["message", "error"], "Login failed"))
  }

  /** The entries a successful login writes: the number, the role and the whole user. */
  function LoginStore(items: map<string, Value>, data: Json): (r: map<string, Value>)
    ensures r.Keys == items.Keys + {UserNumKey, RoleKey, UserKey}
    ensures r[UserKey] == Serialized(data)
    ensures TextItem(r, UserNumKey) == Some(ToText(Get(data, "userNum")))
    ensures TextItem(r, RoleKey) == Some(ToText(Get(data, "role")))
    ensures forall k :: k in items && k !in {UserNumKey, RoleKey, UserKey} ==> r[k] == items[k]
  {
    items[UserNumKey := Str(ToText(Get(data, "userNum")))][RoleKey := Str(ToText(Get(data, "role")))][UserKey := Serialized(data)]
  }

  /** Where a role lands after login; any other role stays where it is. */
  function HomeRoute(role: Json): (r: Option<string>)
    ensures r.Some? <==> role in {JString("EMPLOYEE"), JString("OFFICER"), JString("ADMIN")}
  {
    if role == JString("EMPLOYEE") then Some("/employee")
    else if role == JString("OFFICER") then Some("/officer")
    else if role == JString("ADMIN") then Some("/admin")
    else None
  }

  /** The session entries logout removes; everything else stays. */
  function LogoutStore(items: map<string, Value>): (r: map<string, Value>)
    ensures r.Keys == items.Keys - {UserNumKey, RoleKey, UserKey, AssignedKey}
    ensures forall k :: k in r ==> r[k] == items[k]
  {
    items - {UserNumKey, RoleKey, UserKey, AssignedKey}
  }

  /** A login is restored by the next start-up. */
  lemma LoginThenHydrate(items: map<string, Value>, data: Json)
    ensures HydrationOf(LoginStore(items, data)) == Restored(data)
    ensures HydratedStore(LoginStore(items, data)) == LoginStore(items, data)
  {
    assert LoginStore(items, data)[UserKey] == Serialized(data);
  }

  /** After logout nothing is restored, the assignment cache is empty and the flags are kept. */
  lemma LogoutForgetsSession(items: map<string, Value>)
    ensures HydrationOf(LogoutStore(items)) == NoUser
    ensures ReadAssigned(LogoutStore(items)) == Some([])
    ensures StoredFlags(LogoutStore(items)) == StoredFlags(items)
  {
    assert FlagsKey !in {UserNumKey, RoleKey, UserKey, AssignedKey};
  }

  /** Logging in and then out leaves the store as logging out alone would. */
  lemma LoginThenLogout(items: map<string, Value>, data: Json)
    ensures LogoutStore(LoginStore(items, data)) == LogoutStore(items)
  {
    assert LogoutStore(LoginStore(items, data)).Keys == LogoutStore(items).Keys;
  }

  /** The registration request: the role in lower case names the endpoint. */
  function RegisterRequest(userData: Json, role: string): (c: Call)
    ensures c.HttpPost? && c.body == userData
    ensures StartsWith(c.path, "/auth/register/") && |c.path| == |"/auth/register/"| + |role|
    ensures c.path == "/auth/register/" + Lower(role)
  {
    HttpPost("/auth/register/" + Lower(role), userData)
  }

  /** The role's case does not matter: "OFFICER" and "officer" post to the same endpoint. */
  lemma {:induction false} RegisterIgnoresCase(userData: Json, role: string)
    ensures RegisterRequest(userData, Upper(role)) == RegisterRequest(userData, role)
  {
    LowerOfUpper(role);
  }

  /** None for a registration the server accepted, else the message to show. */
  function RegisterError(reply: Reply): (r: Option<string>)
    ensures r.None? <==> Succeeded(reply)
    ensures r.Some? ==> r.value == FirstMessage(ErrorBody(reply), ["message", "error"], "Registration failed")
    ensures r.Some? ==> r.value != ""
  {
    if Succeeded(reply) then None
    else Some(FirstMessage(ErrorBody(reply), ["message", "error"], "Registration failed"))
  }

  class AuthProvider {
    const store: LocalStorage
    /** The session user; JNull when nobody is signed in. */
    var user: Json
    var loading: bool

    constructor (store: LocalStorage)
      ensures this.store == store && user == JNull && loading
    {
      this.store := store;
      user := JNull;
      loading := true;
    }

    /** The pages are rendered only once loading is over. */
    predicate ChildrenShown()
      reads this
    {
      !loading
    }

    /** The start-up effect. */
    method Hydrate()
      modifies this, store
      ensures HydrationOf(old(store.items)).Restored? ==> user == HydrationOf(old(store.items)).user
      ensures !HydrationOf(old(store.items)).Restored? ==> user == old(user)
      ensures store.items == HydratedStore(old(store.items))
      ensures ChildrenShown()
    {
      var h := HydrationOf(store.items);
      if h.Restored? {
        user := h.user;
      } else if h.Corrupt? {
        store.Clear();
      }
      loading := false;
    }

    /** login: post the credentials; an accepted answer becomes the stored session. */
    method Login(credentials: Json, reply: Reply) returns (result: LoginResult, calls: seq<Call>, route: Option<string>)
      modifies this, store
      ensures calls == [HttpPost(LoginPath, credentials)]
      ensures result == LoginOutcome(reply)
      ensures result.LoggedIn? ==>
        store.items == LoginStore(old(store.items), result.data) && user == result.data &&
        route == HomeRoute(Get(result.data, "role").value)
      ensures result.LoginFailed? ==> store.items == old(store.items) && user == old(user) && route == None
      ensures !loading
    {
      loading := true;
      calls := [HttpPost(LoginPath, credentials)];
      result := LoginOutcome(reply);
      route := None;
      if result.LoggedIn? {
        var data := result.data;
        store.SetItem(UserNumKey, Str(ToText(Get(data, "userNum"))));
        store.SetItem(RoleKey, Str(ToText(Get(data, "role"))));
        store.SetItem(UserKey, Serialized(data));
        user := data;
        route := HomeRoute(Get(data, "role").value);
      }
      loading := false;
    }

    /** logout: the session entries go and the user is cleared whatever the server says. */
    method Logout() returns (calls: seq<Call>, route: string)
      modifies this, store
      ensures calls == [HttpPost(LogoutPath, JNull)] && route == "/login"
      ensures store.items == LogoutStore(old(store.items))
      ensures user == JNull && loading == old(loading)
    {
      calls := [HttpPost(LogoutPath, JNull)];
      store.RemoveItem(UserNumKey);
      store.RemoveItem(RoleKey);
      store.RemoveItem(UserKey);
      store.RemoveItem(AssignedKey);
      user := JNull;
      route := "/login";
    }
  }
}
