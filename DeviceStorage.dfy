/**
 * The device's key-value store (AsyncStorage) as the application uses it:
 * each key holds one serialised value, a table, a token or the serialised
 * current user. Serialisation itself is not modelled; a stored value is the
 * value that was serialised.
 */
module DeviceStorage {
  import opened Wrappers
  import opened Models

  /** A password-reset request as the storage-backed back-end records it (`createdAt` is an ISO string). */
  datatype ResetEntry = ResetEntry(email: string, token: string, createdAt: string)

  /** What a key can hold. `UserRecord(None)` is the text `null`, the serialisation of no user. */
  datatype Stored =
    | UserList(users: seq<User>)
    | ReminderList(reminders: seq<Reminder>)
    | ResetList(resets: seq<ResetEntry>)
    | Plain(text: string)
    | UserRecord(user: Option<User>)

  const UsersKey := "users"
  const RemindersKey := "reminders"
  const ResetsKey := "passwordResets"
  const TokenKey := "userToken"
  const UserDataKey := "userData"

  /**
   * Whether the text `getItem` returns is truthy: the serialisation of a
   * table or a record is never empty, a plain string is truthy when non-empty.
   */
  predicate Truthy(v: Stored) {
    !v.Plain? || v.text != ""
  }

  /** `json ? JSON.parse(json) : []` on the users key: an absent key reads as the empty table. */
  function UsersIn(items: map<string, Stored>): (users: seq<User>)
    ensures UsersKey !in items ==> users == []
    ensures UsersKey in items && items[UsersKey].UserList? ==> users == items[UsersKey].users
  {
    if UsersKey in items && items[UsersKey].UserList? then items[UsersKey].users else []
  }

  /** The reminders key read the same way. */
  function RemindersIn(items: map<string, Stored>): (reminders: seq<Reminder>)
    ensures RemindersKey !in items ==> reminders == []
    ensures RemindersKey in items && items[RemindersKey].ReminderList? ==> reminders == items[RemindersKey].reminders
  {
    if RemindersKey in items && items[RemindersKey].ReminderList? then items[RemindersKey].reminders else []
  }

  /** The password-resets key read the same way. */
  function ResetsIn(items: map<string, Stored>): (resets: seq<ResetEntry>)
    ensures ResetsKey !in items ==> resets == []
    ensures ResetsKey in items && items[ResetsKey].ResetList? ==> resets == items[ResetsKey].resets
  {
    if ResetsKey in items && items[ResetsKey].ResetList? then items[ResetsKey].resets else []
  }

  /** Writing one table leaves the others as they read before. */
  lemma TablesIndependent(items: map<string, Stored>, users: seq<User>, reminders: seq<Reminder>, resets: seq<ResetEntry>)
    ensures RemindersIn(items[UsersKey := UserList(users)]) == RemindersIn(items)
    ensures ResetsIn(items[UsersKey := UserList(users)]) == ResetsIn(items)
    ensures UsersIn(items[RemindersKey := ReminderList(reminders)]) == UsersIn(items)
    ensures ResetsIn(items[RemindersKey := ReminderList(reminders)]) == ResetsIn(items)
    ensures UsersIn(items[ResetsKey := ResetList(resets)]) == UsersIn(items)
    ensures RemindersIn(items[ResetsKey := ResetList(resets)]) == RemindersIn(items)
  {
    assert UsersKey != RemindersKey && UsersKey != ResetsKey && RemindersKey != ResetsKey;
  }

  /** AsyncStorage. */
  class Store {
    var items: map<string, Stored>

    /** An empty store, as on first launch. */
    constructor()
      ensures items == map[]
    {
      items := map[];
    }

    /** `getItem`: the value under the key, if any. */
    function GetItem(key: string): (r: Option<Stored>)
      reads this
      ensures r.Some? <==> key in items
      ensures r.Some? ==> r.value == items[key]
    {
      if key in items then Some(items[key]) else None
    }

    /** `setItem`: the key now holds the value; every other key is unchanged. */
    method SetItem(key: string, value: Stored)
      modifies this
      ensures items == old(items)[key := value]
    {
      items := items[key := value];
    }

    /** `removeItem`: the key is gone; every other key is unchanged. */
    method RemoveItem(key: string)
      modifies this
      ensures items == old(items) - {key}
    {
      items := items - {key};
    }
  }
}
