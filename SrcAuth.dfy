/**
 * The authentication provider over the storage-backed back-end: three state
 * fields and the two session keys of the device store, changed step by step
 * by each operation.
 */
module SrcAuth {
  import opened Wrappers
  import opened Text
  import opened Models
  import opened DeviceStorage
  import opened StorageApi
  import opened AuthSession

  const RegisterFailed := "Une erreur s'est produite lors de l'inscription"

  class AuthProvider {
    const api: StorageBackend
    var isAuthenticated: bool
    var user: Option<User>
    var isLoading: bool

    /** The initial state: signed out, no user, loading. */
    constructor(api: StorageBackend)
      ensures this.api == api
      ensures !isAuthenticated && user.None? && isLoading
    {
      this.api := api;
      isAuthenticated := false;
      user := None;
      isLoading := true;
    }

    /** `refreshAuthState`: the session is rebuilt from storage and loading ends; storage is only read. */
    method RefreshAuthState()
      modifies this
      ensures Session(isAuthenticated, user) == Restore(api.store.items)
      ensures !isLoading
    {
      isLoading := true;
      var token := api.store.GetItem(TokenKey);
      var userData := api.store.GetItem(UserDataKey);
      if token.Some? && Truthy(token.value) && userData.Some? && Truthy(userData.value) {
        if userData.value.UserRecord? {
          user := userData.value.user;
          isAuthenticated := true;
        } else {
          user := None;
          isAuthenticated := false;
        }
      } else {
        user := None;
        isAuthenticated := false;
      }
      isLoading := false;
    }

    /**
     * `login`: a successful answer stores its token and the returned user
     * and signs in as that user; a failed one changes nothing. The answer is
     * returned as the back-end gave it.
     */
    method Login(email: string, password: string, nowMs: nat) returns (r: Response<AuthData>)
      modifies this, api.store
      ensures r == LoginAnswer(UsersIn(old(api.store.items)), email, password, nowMs)
      ensures isLoading == old(isLoading)
      ensures r.success && r.data.Some? ==>
        && api.store.items == old(api.store.items)[TokenKey := Plain(r.data.value.token)]
                                                  [UserDataKey := UserRecord(Some(r.data.value.user))]
        && isAuthenticated && user == Some(r.data.value.user)
      ensures !(r.success && r.data.Some?) ==>
        && api.store.items == old(api.store.items)
        && isAuthenticated == old(isAuthenticated) && user == old(user)
    {
      r := api.Login(email, password, nowMs);
      if r.success && r.data.Some? {
        var token := r.data.value.token;
        var userData := r.data.value.user;
        api.store.SetItem(TokenKey, Plain(token));
        api.store.SetItem(UserDataKey, UserRecord(Some(userData)));
        user := Some(userData);
        isAuthenticated := true;
      }
    }

    /**
     * `register`: a successful answer is stored and signs in like `login`;
     * a failed one is returned with its message (or the generic one) and
     * changes nothing.
     */
    method Register(data: RegisterData, now: string, nowMs: nat) returns (r: Response<AuthData>)
      modifies this, api.store
      ensures isLoading == old(isLoading)
      ensures var g := RegisterAnswer(UsersIn(old(api.store.items)), data, now, nowMs);
        g.response.success ==>
          && r == g.response
          && api.store.items == old(api.store.items)[UsersKey := UserList(g.users)]
                                                    [TokenKey := Plain(r.data.value.token)]
                                                    [UserDataKey := UserRecord(Some(r.data.value.user))]
          && isAuthenticated && user == Some(r.data.value.user)
      ensures var g := RegisterAnswer(UsersIn(old(api.store.items)), data, now, nowMs);
        !g.response.success ==>
          && r == Failure(MessageOr(g.response.message, RegisterFailed))
          && api.store.items == old(api.store.items)
          && isAuthenticated == old(isAuthenticated) && user == old(user)
    {
      var response := api.Register(data, now, nowMs);
      if response.success && response.data.Some? {
        var token := response.data.value.token;
        var registeredUser := response.data.value.user;
        api.store.SetItem(TokenKey, Plain(token));
        api.store.SetItem(UserDataKey, UserRecord(Some(registeredUser)));
        user := Some(registeredUser);
        isAuthenticated := true;
        r := response;
      } else {
        r := Failure(MessageOr(response.message, RegisterFailed));
      }
    }

    /** `logout`: both session keys removed, signed out. */
    method Logout()
      modifies this, api.store
      ensures api.store.items == old(api.store.items) - {TokenKey} - {UserDataKey}
      ensures !isAuthenticated && user.None? && isLoading == old(isLoading)
    {
      api.store.RemoveItem(TokenKey);
      api.store.RemoveItem(UserDataKey);
      user := None;
      isAuthenticated := false;
    }
  }

  /**
   * A registration refused by the back-end always reports that the email is
   * taken: its own message is never empty, so the generic one never shows.
   */
  lemma RegisterFailureIsEmailTaken(users: seq<User>, data: RegisterData, now: string, nowMs: nat)
    requires !RegisterAnswer(users, data, now, nowMs).response.success
    ensures MessageOr(RegisterAnswer(users, data, now, nowMs).response.message, RegisterFailed) == EmailTaken
  {
    if forall i :: 0 <= i < |users| ==> users[i].email != data.email {
    }
  }

  /** A signed-in session survives a restart: a restore after a successful login shows the same user. */
  lemma LoginSurvivesRestart(items: map<string, Stored>, email: string, password: string, nowMs: nat)
    requires LoginAnswer(UsersIn(items), email, password, nowMs).success
    ensures var r := LoginAnswer(UsersIn(items), email, password, nowMs);
      Restore(items[TokenKey := Plain(r.data.value.token)][UserDataKey := UserRecord(Some(r.data.value.user))])
        == Session(true, Some(r.data.value.user))
  {
    var r := LoginAnswer(UsersIn(items), email, password, nowMs);
    assert r.data.value.token == TokenPrefix + NatToString(nowMs);
    assert r.data.value.token[0] == TokenPrefix[0];
    RestoreShowsWrittenRecord(items, r.data.value.token, Some(r.data.value.user));
  }
}
