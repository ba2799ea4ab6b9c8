/**
 * The session held by `AuthProvider` (src/contexts/AuthContext.tsx): three
 * state cells mirrored into the browser's key-value storage under the keys
 * fleet-auth, fleet-role and fleet-name, and rebuilt from that storage when
 * the provider mounts.
 */
module Session {
  import opened Wrappers

  datatype Role = Admin | Driver | Supplier

  /** The string a `UserRole` is at run time. */
  function RoleName(r: Role): string {
    match r
    case Admin => "admin"
    case Driver => "driver"
    case Supplier => "supplier"
  }

  const AuthKey: string := "fleet-auth"
  const RoleKey: string := "fleet-role"
  const NameKey: string := "fleet-name"
  const SessionKeys: set<string> := {AuthKey, RoleKey, NameKey}

  /** The browser's key-value storage, which has no failure modes here. */
  type Store = map<string, string>

  /** `getItem`: the stored text, or null when the key is absent. */
  function GetItem(store: Store, key: string): Option<string> {
    if key in store then Some(store[key]) else None
  }

  /**
   * The three cells the provider exposes. `role` is whatever string the cell
   * holds: the storage initialiser casts any stored text to a role without
   * checking it.
   */
  datatype AuthState = AuthState(isAuthenticated: bool, role: Option<string>, userName: string)

  const Anonymous: AuthState := AuthState(false, None, "")

  /** The initial cells: `!!getItem(auth)`, `getItem(role)`, `getItem(name) || ""`. */
  function Restore(store: Store): (s: AuthState)
    ensures s.isAuthenticated <==> AuthKey in store && store[AuthKey] != ""
    ensures s.role.Some? <==> RoleKey in store
    ensures s.role.Some? ==> s.role.value == store[RoleKey]
    ensures s.userName == (if NameKey in store then store[NameKey] else "")
  {
    var auth := GetItem(store, AuthKey);
    var name := GetItem(store, NameKey);
    AuthState(
      auth.Some? && auth.value != "",
      GetItem(store, RoleKey),
      if name.Some? && name.value != "" then name.value else "")
  }

  /** The storage after `login(r, name)`: the three keys are set, every other key is kept. */
  function StoreAfterLogin(store: Store, r: Role, name: string): (s: Store)
    ensures s.Keys == store.Keys + SessionKeys
    ensures s[AuthKey] == "true" && s[RoleKey] == RoleName(r) && s[NameKey] == name
    ensures forall k :: k in store && k !in SessionKeys ==> s[k] == store[k]
  {
    store[AuthKey := "true"][RoleKey := RoleName(r)][NameKey := name]
  }

  /** The storage after `logout()`: the three keys are gone, every other key is kept. */
  function StoreAfterLogout(store: Store): (s: Store)
    ensures s.Keys == store.Keys - SessionKeys
    ensures forall k :: k in s ==> s[k] == store[k]
  {
    store - {AuthKey} - {RoleKey} - {NameKey}
  }

  /** Reloading after a login rebuilds exactly the cells that login set. */
  lemma LoginSurvivesReload(store: Store, r: Role, name: string)
    ensures Restore(StoreAfterLogin(store, r, name)) == AuthState(true, Some(RoleName(r)), name)
  {
  }

  /** Reloading after a logout is anonymous, whatever else the storage holds. */
  lemma LogoutSurvivesReload(store: Store)
    ensures Restore(StoreAfterLogout(store)) == Anonymous
  {
  }

  /** A second logout changes nothing in storage. */
  lemma LogoutIdempotent(store: Store)
    ensures StoreAfterLogout(StoreAfterLogout(store)) == StoreAfterLogout(store)
  {
  }

  /** A login after any history overrides it: the earlier session leaves no trace in the rebuilt cells. */
  lemma LoginOverridesHistory(store: Store, r: Role, name: string)
    ensures Restore(StoreAfterLogin(StoreAfterLogout(store), r, name)) == Restore(StoreAfterLogin(store, r, name))
  {
  }

  /** `window.localStorage`, as one mutable map shared by every provider instance. */
  class LocalStorage {
    var entries: Store

    constructor (initial: Store)
      ensures entries == initial
    {
      entries := initial;
    }

    method GetItemAt(key: string) returns (v: Option<string>)
      ensures v == GetItem(entries, key)
    {
      v := if key in entries then Some(entries[key]) else None;
    }

    method SetItem(key: string, value: string)
      modifies this
      ensures entries == old(entries)[key := value]
    {
      entries := entries[key := value];
    }

    method RemoveItem(key: string)
      modifies this
      ensures entries == old(entries) - {key}
    {
      entries := entries - {key};
    }
  }

  /** `AuthProvider`: the three `useState` cells and the storage they are mirrored into. */
  class AuthProvider {
    const storage: LocalStorage
    var isAuthenticated: bool
    var role: Option<string>
    var userName: string

    function State(): AuthState
      reads this
    {
      AuthState(isAuthenticated, role, userName)
    }

    /** Mounting: each cell is initialised from storage. */
    constructor (storage: LocalStorage)
      ensures this.storage == storage
      ensures State() == Restore(storage.entries)
    {
      this.storage := storage;
      var auth := storage.GetItemAt(AuthKey);
      var storedRole := storage.GetItemAt(RoleKey);
      var name := storage.GetItemAt(NameKey);
      isAuthenticated := auth.Some? && auth.value != "";
      role := storedRole;
      userName := if name.Some? && name.value != "" then name.value else "";
    }

    method Login(r: Role, name: string)
      modifies this, storage
      ensures State() == AuthState(true, Some(RoleName(r)), name)
      ensures storage.entries == StoreAfterLogin(old(storage.entries), r, name)
    {
      isAuthenticated := true;
      role := Some(RoleName(r));
      userName := name;
      storage.SetItem(AuthKey, "true");
      storage.SetItem(RoleKey, RoleName(r));
      storage.SetItem(NameKey, name);
    }

    method Logout()
      modifies this, storage
      ensures State() == Anonymous
      ensures storage.entries == StoreAfterLogout(old(storage.entries))
    {
      isAuthenticated := false;
      role := None;
      userName := "";
      storage.RemoveItem(AuthKey);
      storage.RemoveItem(RoleKey);
      storage.RemoveItem(NameKey);
    }
  }

  /** A page reload after `login`: a fresh provider over the same storage shows the same session. */
  method ReloadAfterLogin(storage: LocalStorage, r: Role, name: string) returns (before: AuthState, after: AuthState)
    modifies storage
    ensures before == after == AuthState(true, Some(RoleName(r)), name)
  {
    var p := new AuthProvider(storage);
    p.Login(r, name);
    before := p.State();
    var q := new AuthProvider(storage);
    LoginSurvivesReload(old(storage.entries), r, name);
    after := q.State();
  }

  /** Logging out twice leaves the same cells and storage as logging out once. */
  method LogoutTwice(p: AuthProvider)
    modifies p, p.storage
    ensures p.State() == Anonymous
    ensures p.storage.entries == StoreAfterLogout(old(p.storage.entries))
  {
    p.Logout();
    p.Logout();
    LogoutIdempotent(old(p.storage.entries));
  }
}
