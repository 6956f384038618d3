/**
 * What both authentication providers share: the session a provider shows
 * (signed in or not, and as whom) and how `refreshAuthState` rebuilds it
 * from the two storage keys `userToken` and `userData`.
 */
module AuthSession {
  import opened Wrappers
  import opened Models
  import opened DeviceStorage

  /** The `isAuthenticated` and `user` state of a provider. */
  datatype Session = Session(isAuthenticated: bool, user: Option<User>)

  const SignedOut := Session(false, None)

  /**
   * The session `refreshAuthState` restores: signed in exactly when the token
   * key holds a truthy value and the user key holds a serialised user record,
   * possibly `null`; the user is then whatever that record holds. A value
   * under `userData` that is not a user record is read as a parse failure,
   * which signs out like a missing key.
   */
  function Restore(items: map<string, Stored>): (s: Session)
    ensures s.isAuthenticated <==>
      TokenKey in items && Truthy(items[TokenKey]) && UserDataKey in items && items[UserDataKey].UserRecord?
    ensures s.isAuthenticated ==> s.user == items[UserDataKey].user
    ensures !s.isAuthenticated ==> s == SignedOut
  {
    if TokenKey in items && Truthy(items[TokenKey]) && UserDataKey in items && Truthy(items[UserDataKey])
       && items[UserDataKey].UserRecord?
    then Session(true, items[UserDataKey].user)
    else SignedOut
  }

  /** After `logout` removed both keys, a restore signs out. */
  lemma RestoreAfterSignOut(items: map<string, Stored>)
    ensures Restore(items - {TokenKey} - {UserDataKey}) == SignedOut
  {
  }

  /**
   * Whatever record a sign-in writes under `userData` is what a restore
   * shows, even `null`: the token alone makes the session signed in.
   */
  lemma RestoreShowsWrittenRecord(items: map<string, Stored>, token: string, record: Option<User>)
    requires token != ""
    ensures Restore(items[TokenKey := Plain(token)][UserDataKey := UserRecord(record)]) == Session(true, record)
  {
    assert TokenKey != UserDataKey;
  }
}
