/**
 * The invariant of the in-memory back-end's user table and the facts that
 * let registration keep it: the seed user first, the identifiers
 * `"1"`, `"2"`, … in order, and no email registered twice.
 */
module UserTable {
  import opened Text
  import opened Models

  /**
   * The user table `mockData.users` as every call leaves it: the seed user
   * first, serial identifiers and no two users sharing an email.
   */
  ghost predicate UserTableOk(users: seq<User>) {
    SeedFirst(users) && SerialNumbered(users) && DistinctEmails(users)
  }

  ghost predicate SeedFirst(users: seq<User>) {
    |users| >= 1 && users[0] == SeedUser
  }

  /** User `i` (from 0) has the identifier `(i + 1).toString()`; stated from the end, as the table grows. */
  ghost predicate SerialNumbered(users: seq<User>) {
    users == [] || (SerialNumbered(users[..|users| - 1]) && users[|users| - 1].id == NatToString(|users|))
  }

  /** The identifier of each user of a serially numbered table. */
  lemma {:induction false} SerialIdAt(users: seq<User>, i: nat)
    requires SerialNumbered(users) && i < |users|
    ensures users[i].id == NatToString(i + 1)
  {
    if i < |users| - 1 {
      var init := users[..|users| - 1];
      SerialIdAt(init, i);
      assert init[i] == users[i];
    }
  }

  ghost predicate DistinctEmails(users: seq<User>) {
    forall i, j :: 0 <= i < j < |users| ==> users[i].email != users[j].email
  }

  /** The table holding only the seed user is well formed. */
  lemma SeedTableOk()
    ensures UserTableOk([SeedUser])
  {
    assert [SeedUser][..0] == [];
    assert NatToString(1) == "1";
  }

  /** An email no user has can be appended without a clash. */
  lemma {:induction false} AppendFreshEmail(users: seq<User>, u: User)
    requires DistinctEmails(users)
    requires forall i :: 0 <= i < |users| ==> users[i].email != u.email
    ensures DistinctEmails(users + [u])
  {
    var all := users + [u];
    forall i, j | 0 <= i < j < |all| ensures all[i].email != all[j].email {
      if j < |users| {
        assert all[i] == users[i] && all[j] == users[j];
      }
    }
  }

  /** Appending a user with the next identifier and an unused email keeps the table well formed. */
  lemma {:induction false} AppendUserKeepsTable(users: seq<User>, u: User)
    requires UserTableOk(users)
    requires u.id == NatToString(|users| + 1)
    requires forall i :: 0 <= i < |users| ==> users[i].email != u.email
    ensures UserTableOk(users + [u])
  {
    AppendKeepsSerial(users, u);
    AppendFreshEmail(users, u);
    SeedUserStaysFirst(users, u);
  }

  /** Appending a user with the next identifier keeps the identifiers serial. */
  lemma {:induction false} AppendKeepsSerial(users: seq<User>, u: User)
    requires SerialNumbered(users)
    requires u.id == NatToString(|users| + 1)
    ensures SerialNumbered(users + [u])
  {
    assert (users + [u])[..|users|] == users;
  }

  lemma {:induction false} SeedUserStaysFirst(users: seq<User>, u: User)
    requires SeedFirst(users)
    ensures SeedFirst(users + [u])
  {
    assert (users + [u])[0] == users[0];
  }

  /** No two users of a well-formed table share an identifier. */
  lemma {:induction false} UserIdsUnique(users: seq<User>)
    requires UserTableOk(users)
    ensures forall i, j :: 0 <= i < j < |users| ==> users[i].id != users[j].id
  {
    forall i, j | 0 <= i < j < |users| ensures users[i].id != users[j].id {
      SerialIdAt(users, i);
      SerialIdAt(users, j);
      NatToStringInjective(i + 1, j + 1);
    }
  }
}
