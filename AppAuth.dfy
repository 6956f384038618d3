/**
 * The authentication provider the screens use: signs in against the
 * in-memory back-end, keeps the session under the same two storage keys,
 * and simulates registration without contacting any back-end. The random
 * token suffix and user identifier of a registration are parameters.
 */
module AppAuth {
  import opened Wrappers
  import opened Models
  import opened DeviceStorage
  import opened MockApi
  import opened AuthSession

  const MadeUpTokenPrefix := "fake-token-"

  class AuthProvider {
    const api: MockBackend
    const store: Store
    var isAuthenticated: bool
    var user: Option<User>
    var isLoading: bool

    /** The initial state: signed out, no user, loading. */
    constructor(api: MockBackend, store: Store)
      ensures this.api == api && this.store == store
      ensures !isAuthenticated && user.None? && isLoading
    {
      this.api := api;
      this.store := store;
      isAuthenticated := false;
      user := None;
      isLoading := true;
    }

    /** `refreshAuthState`: the session is rebuilt from storage and loading ends; storage is only read. */
    method RefreshAuthState()
      modifies this
      ensures Session(isAuthenticated, user) == Restore(store.items)
      ensures !isLoading
    {
      isLoading := true;
      var token := store.GetItem(TokenKey);
      var userData := store.GetItem(UserDataKey);
      if token.Some? && Truthy(token.value) && userData.Some? && Truthy(userData.value) {
        if userData.value.UserRecord? {
          user := userData.value.user;
          isAuthenticated := true;
        } else {
          user := None;
          isAuthenticated := false;
        }
      } else {
        user := None;
        isAuthenticated := false;
      }
      isLoading := false;
    }

    /**
     * `login` as written: a successful answer stores the token, signs in as
     * the returned user, but stores under `userData` the user the provider
     * held BEFORE this call (`null` on a first sign-in). A failed answer
     * changes nothing.
     */
    method Login(email: string, password: string) returns (r: Response<AuthData>)
      requires api.Valid()
      modifies this, store
      ensures r.success <==> email == DemoEmail && password == DemoPassword
      ensures isLoading == old(isLoading)
      ensures r.success ==>
        && r == Response(true, None, Some(AuthData(DemoToken, SeedUser)))
        && store.items == old(store.items)[TokenKey := Plain(DemoToken)][UserDataKey := UserRecord(old(user))]
        && isAuthenticated && user == Some(SeedUser)
      ensures !r.success ==>
        && r == Failure(BadCredentials)
        && store.items == old(store.items)
        && isAuthenticated == old(isAuthenticated) && user == old(user)
    {
      r := api.Login(email, password);
      if r.success && r.data.Some? {
        var token := r.data.value.token;
        var userData := r.data.value.user;
        store.SetItem(TokenKey, Plain(token));
        store.SetItem(UserDataKey, UserRecord(user));
        user := Some(userData);
        isAuthenticated := true;
      }
    }

    /** `login` as evidently intended: the returned user is what is stored under `userData`. */
    method LoginFixed(email: string, password: string) returns (r: Response<AuthData>)
      requires api.Valid()
      modifies this, store
      ensures r.success <==> email == DemoEmail && password == DemoPassword
      ensures isLoading == old(isLoading)
      ensures r.success ==>
        && r == Response(true, None, Some(AuthData(DemoToken, SeedUser)))
        && store.items == old(store.items)[TokenKey := Plain(DemoToken)][UserDataKey := UserRecord(Some(SeedUser))]
        && isAuthenticated && user == Some(SeedUser)
      ensures !r.success ==>
        && r == Failure(BadCredentials)
        && store.items == old(store.items)
        && isAuthenticated == old(isAuthenticated) && user == old(user)
    {
      r := api.Login(email, password);
      if r.success && r.data.Some? {
        var token := r.data.value.token;
        var userData := r.data.value.user;
        store.SetItem(TokenKey, Plain(token));
        store.SetItem(UserDataKey, UserRecord(Some(userData)));
        user := Some(userData);
        isAuthenticated := true;
      }
    }

    /**
     * `register`: always succeeds with a made-up token and user copying the
     * email and names, the phone defaulting to the empty string; neither the
     * session nor storage nor the back-end changes.
     */
    method Register(data: RegisterData, tokenSuffix: string, id: string, now: string) returns (r: Response<AuthData>)
      ensures r.success && r.message.None?
      ensures r.data == Some(AuthData(MadeUpTokenPrefix + tokenSuffix,
        User(id, data.email, None, data.firstName, data.lastName, Some(PhoneOrEmpty(data.phone)), Some(now), Some(now))))
    {
      var newUser := User(id, data.email, None, data.firstName, data.lastName,
                          Some(PhoneOrEmpty(data.phone)), Some(now), Some(now));
      r := Response(true, None, Some(AuthData(MadeUpTokenPrefix + tokenSuffix, newUser)));
    }

    /** `logout`: both session keys removed, signed out. */
    method Logout()
      modifies this, store
      ensures store.items == old(store.items) - {TokenKey} - {UserDataKey}
      ensures !isAuthenticated && user.None? && isLoading == old(isLoading)
    {
      store.RemoveItem(TokenKey);
      store.RemoveItem(UserDataKey);
      user := None;
      isAuthenticated := false;
    }
  }

  /**
   * The stale write observed: on a fresh install, signing in with the
   * demonstration account and restarting the application (a restore) gives
   * a signed-in session with no user.
   */
  method StaleLoginScenario() returns (isAuthenticated: bool, user: Option<User>)
    ensures isAuthenticated && user.None?
  {
    var api := new MockBackend();
    var store := new Store();
    var auth := new AuthProvider(api, store);
    auth.RefreshAuthState();
    var response := auth.Login(DemoEmail, DemoPassword);
    auth.RefreshAuthState();
    isAuthenticated, user := auth.isAuthenticated, auth.user;
  }

  /** The same sequence with the corrected sign-in restores the demonstration user. */
  method FixedLoginScenario() returns (isAuthenticated: bool, user: Option<User>)
    ensures isAuthenticated && user == Some(SeedUser)
  {
    var api := new MockBackend();
    var store := new Store();
    var auth := new AuthProvider(api, store);
    auth.RefreshAuthState();
    var response := auth.LoginFixed(DemoEmail, DemoPassword);
    auth.RefreshAuthState();
    isAuthenticated, user := auth.isAuthenticated, auth.user;
  }
}
