/**
 * The storage-backed back-end: users, reminders and password-reset requests
 * live in the device store, each table under its own key; medications live
 * in a table held by the back-end object itself. The delays, the console
 * output and the `catch` branches are not modelled; the current time, the
 * millisecond clock and the random reset token are parameters.
 */
module StorageApi {
  import opened Wrappers
  import opened Text
  import opened Tables
  import opened Models
  import opened DeviceStorage

  // The messages of the responses.
  const LoggedIn := "Connexion réussie"
  const BadCredentials := "Email ou mot de passe incorrect"
  const EmailTaken := "Cet email est déjà utilisé"
  const Registered := "Inscription réussie"
  const MedicationAdded := "Médicament ajouté"
  const MedicationUpdated := "Médicament mis à jour"
  const ReminderAdded := "Rappel ajouté"
  const ResetSent := "Lien de réinitialisation envoyé."
  const BadResetToken := "Token invalide ou expiré"
  const PasswordChanged := "Mot de passe réinitialisé avec succès"
  const TokenPrefix := "fake-jwt-token-"

  /** `Médicament ${id} non trouvé`. */
  function NotFoundMessage(id: string): string {
    "Médicament " + id + " non trouvé"
  }

  /** The test of `login`: the email matches and a password is stored and equals the one given. */
  function IsAccount(email: string, password: string): User -> bool {
    (u: User) => u.email == email && u.password == Some(password)
  }

  function HasResetToken(token: string): ResetEntry -> bool {
    (e: ResetEntry) => e.token == token
  }

  /**
   * The answer of `login` over the stored users: success exactly when some
   * user has that email and that password, and then the first such user,
   * with a token made from the clock.
   */
  function LoginAnswer(users: seq<User>, email: string, password: string, nowMs: nat): (r: Response<AuthData>)
    ensures r.success <==> exists i :: 0 <= i < |users| && users[i].email == email && users[i].password == Some(password)
    ensures r.success ==> exists i ::
      && 0 <= i < |users| && users[i].email == email && users[i].password == Some(password)
      && (forall j :: 0 <= j < i ==> !(users[j].email == email && users[j].password == Some(password)))
      && r == Response(true, Some(LoggedIn), Some(AuthData(TokenPrefix + NatToString(nowMs), users[i])))
    ensures !r.success ==> r == Failure(BadCredentials)
  {
    var found := FindIndex(users, IsAccount(email, password));
    if found.None? then
      assert forall j :: 0 <= j < |users| ==> !IsAccount(email, password)(users[j]);
      Failure(BadCredentials)
    else
      assert IsAccount(email, password)(users[found.value]);
      Response(true, Some(LoggedIn), Some(AuthData(TokenPrefix + NatToString(nowMs), users[found.value])))
  }

  /** The users table and the response `register` leaves. */
  datatype Registration = Registration(users: seq<User>, response: Response<AuthData>)

  /**
   * `register` over the stored users: a present email fails and keeps the
   * table; otherwise one user is appended, with identifier `length + 1`,
   * the given password and the phone defaulting to the empty string.
   */
  function RegisterAnswer(users: seq<User>, data: RegisterData, now: string, nowMs: nat): (g: Registration)
    ensures (exists i :: 0 <= i < |users| && users[i].email == data.email) ==>
      g == Registration(users, Failure(EmailTaken))
    ensures (forall i :: 0 <= i < |users| ==> users[i].email != data.email) ==>
      && |g.users| == |users| + 1 && g.users[..|users|] == users
      && g.users[|users|] == User(NatToString(|users| + 1), data.email, Some(data.password), data.firstName,
                                  data.lastName, Some(PhoneOrEmpty(data.phone)), Some(now), Some(now))
      && g.response == Response(true, Some(Registered), Some(AuthData(TokenPrefix + NatToString(nowMs), g.users[|users|])))
  {
    var existing := FindIndex(users, HasEmail(data.email));
    if existing.Some? then
      assert users[existing.value].email == data.email;
      Registration(users, Failure(EmailTaken))
    else
      assert forall i :: 0 <= i < |users| ==> !HasEmail(data.email)(users[i]);
      var newUser := User(NatToString(|users| + 1), data.email, Some(data.password), data.firstName,
                          data.lastName, Some(PhoneOrEmpty(data.phone)), Some(now), Some(now));
      Registration(users + [newUser], Response(true, Some(Registered), Some(AuthData(TokenPrefix + NatToString(nowMs), newUser))))
  }

  /**
   * `user.password = newPassword` on the first user with the email: `None`
   * when no user has it, otherwise the table with only that user changed.
   */
  function SetPassword(users: seq<User>, email: string, password: string): (r: Option<seq<User>>)
    ensures r.None? <==> forall i :: 0 <= i < |users| ==> users[i].email != email
    ensures r.Some? ==> exists j ::
      && 0 <= j < |users| && users[j].email == email
      && (forall i :: 0 <= i < j ==> users[i].email != email)
      && r.value == users[j := users[j].(password := Some(password))]
  {
    var found := FindIndex(users, HasEmail(email));
    if found.None? then
      assert forall i :: 0 <= i < |users| ==> !HasEmail(email)(users[i]);
      None
    else
      assert HasEmail(email)(users[found.value]);
      var j := found.value;
      Some(users[j := users[j].(password := Some(password))])
  }

  /** A successful registration makes the new account the one `login` finds with the same email and password. */
  lemma RegisteredUserCanLogin(users: seq<User>, data: RegisterData, now: string, nowMs: nat, laterMs: nat)
    requires RegisterAnswer(users, data, now, nowMs).response.success
    ensures var g := RegisterAnswer(users, data, now, nowMs);
      LoginAnswer(g.users, data.email, data.password, laterMs) ==
        Response(true, Some(LoggedIn), Some(AuthData(TokenPrefix + NatToString(laterMs), g.users[|users|])))
  {
    var g := RegisterAnswer(users, data, now, nowMs);
    var account := IsAccount(data.email, data.password);
    assert forall i :: 0 <= i < |users| ==> users[i].email != data.email;
    assert forall i :: 0 <= i < |users| ==> !account(users[i]);
    assert g.users == users + [g.users[|users|]];
    FindIndexAfterMisses(users, g.users[|users|], account);
  }

  /** After a password reset, `login` with the email and the new password succeeds and finds the changed user. */
  lemma ResetUserCanLogin(users: seq<User>, email: string, password: string, nowMs: nat)
    requires SetPassword(users, email, password).Some?
    ensures var changed := SetPassword(users, email, password).value;
      LoginAnswer(changed, email, password, nowMs).success
  {
    var changed := SetPassword(users, email, password).value;
    var j :| && 0 <= j < |users| && users[j].email == email
             && changed == users[j := users[j].(password := Some(password))];
    assert changed[j].email == email && changed[j].password == Some(password);
  }

  /** `api`: the device store and the `_meds` table. */
  class StorageBackend {
    const store: Store
    var meds: seq<Medication>

    /** `api` once `api._meds = mockMeds` has run. */
    constructor(store: Store)
      ensures this.store == store && meds == SeedMedications
    {
      this.store := store;
      meds := SeedMedications;
    }

    /** `login`: reads the users key, changes nothing. */
    method Login(email: string, password: string, nowMs: nat) returns (r: Response<AuthData>)
      ensures r == LoginAnswer(UsersIn(store.items), email, password, nowMs)
    {
      var stored := store.GetItem(UsersKey);
      var users := if stored.Some? && stored.value.UserList? then stored.value.users else [];
      var found := FindIndex(users, IsAccount(email, password));
      if found.None? {
        r := Failure(BadCredentials);
      } else {
        r := Response(true, Some(LoggedIn), Some(AuthData(TokenPrefix + NatToString(nowMs), users[found.value])));
      }
    }

    /** `register`: writes the users key back only when a user was appended. */
    method Register(data: RegisterData, now: string, nowMs: nat) returns (r: Response<AuthData>)
      modifies store
      ensures var g := RegisterAnswer(UsersIn(old(store.items)), data, now, nowMs);
        && r == g.response
        && store.items == if r.success then old(store.items)[UsersKey := UserList(g.users)] else old(store.items)
    {
      var stored := store.GetItem(UsersKey);
      var users := if stored.Some? && stored.value.UserList? then stored.value.users else [];
      var existing := FindIndex(users, HasEmail(data.email));
      if existing.Some? {
        r := Failure(EmailTaken);
        return;
      }
      var newUser := User(NatToString(|users| + 1), data.email, Some(data.password), data.firstName,
                          data.lastName, Some(PhoneOrEmpty(data.phone)), Some(now), Some(now));
      users := users + [newUser];
      store.SetItem(UsersKey, UserList(users));
      r := Response(true, Some(Registered), Some(AuthData(TokenPrefix + NatToString(nowMs), newUser)));
    }

    /** `getMedications`: the whole `_meds` table. */
    method GetMedications() returns (r: Response<seq<Medication>>)
      ensures r == Response(true, None, Some(meds))
    {
      r := Response(true, None, Some(meds));
    }

    /** `getMedicationById`: the first medication carrying the identifier, or a not-found failure. */
    method GetMedicationById(id: string) returns (r: Response<Medication>)
      ensures r.success <==> exists i :: 0 <= i < |meds| && meds[i].id == id
      ensures r.success ==> r.message.None? && exists i ::
        && 0 <= i < |meds| && meds[i].id == id
        && (forall j :: 0 <= j < i ==> meds[j].id != id)
        && r.data == Some(meds[i])
      ensures !r.success ==> r == Failure(NotFoundMessage(id))
    {
      var found := FindIndex(meds, HasMedicationId(id));
      if found.Some? {
        r := Response(true, None, Some(meds[found.value]));
      } else {
        r := Failure(NotFoundMessage(id));
      }
    }

    /** `addMedication`: one medication appended, with identifier `length + 1` and both timestamps set. */
    method AddMedication(draft: MedicationDraft, now: string) returns (r: Response<Medication>)
      modifies this
      ensures meds == old(meds) + [MedicationFromDraft(draft, NatToString(|old(meds)| + 1), now)]
      ensures r == Response(true, Some(MedicationAdded), Some(meds[|meds| - 1]))
    {
      var newMedication := MedicationFromDraft(draft, NatToString(|meds| + 1), now);
      meds := meds + [newMedication];
      r := Response(true, Some(MedicationAdded), Some(newMedication));
    }

    /**
     * `updateMedication`: an unknown identifier fails and changes nothing;
     * otherwise the first medication carrying it is replaced in place by the
     * merge of the update into it, stamped with the current time.
     */
    method UpdateMedication(id: string, patch: MedicationPatch, now: string) returns (r: Response<Medication>)
      modifies this
      ensures var found := FindIndex(old(meds), HasMedicationId(id));
        found.None? ==> meds == old(meds) && r == Failure(NotFoundMessage(id))
      ensures var found := FindIndex(old(meds), HasMedicationId(id));
        found.Some? ==>
          && meds == old(meds)[found.value := ApplyPatch(old(meds)[found.value], patch, now)]
          && r == Response(true, Some(MedicationUpdated), Some(meds[found.value]))
    {
      var index := FindIndex(meds, HasMedicationId(id));
      if index.None? {
        r := Failure(NotFoundMessage(id));
        return;
      }
      var updated := ApplyPatch(meds[index.value], patch, now);
      meds := meds[index.value := updated];
      r := Response(true, Some(MedicationUpdated), Some(updated));
    }

    /** `getReminders`: the stored list, empty when the key is absent. */
    method GetReminders() returns (r: Response<seq<Reminder>>)
      ensures r == Response(true, None, Some(RemindersIn(store.items)))
    {
      var stored := store.GetItem(RemindersKey);
      var list := if stored.Some? && stored.value.ReminderList? then stored.value.reminders else [];
      r := Response(true, None, Some(list));
    }

    /** `addReminder`: one reminder appended, with identifier `length + 1`, and the list written back. */
    method AddReminder(draft: ReminderDraft, now: string) returns (r: Response<Reminder>)
      modifies store
      ensures var list := RemindersIn(old(store.items));
        && store.items == old(store.items)[RemindersKey :=
             ReminderList(list + [ReminderFromDraft(draft, NatToString(|list| + 1), now)])]
        && r == Response(true, Some(ReminderAdded), Some(ReminderFromDraft(draft, NatToString(|list| + 1), now)))
    {
      var stored := store.GetItem(RemindersKey);
      var list := if stored.Some? && stored.value.ReminderList? then stored.value.reminders else [];
      var newReminder := ReminderFromDraft(draft, NatToString(|list| + 1), now);
      list := list + [newReminder];
      store.SetItem(RemindersKey, ReminderList(list));
      r := Response(true, Some(ReminderAdded), Some(newReminder));
    }

    /** `requestPasswordReset`: always succeeds and appends one request, whether or not the email is known. */
    method RequestPasswordReset(email: string, token: string, now: string) returns (r: Response<()>)
      modifies store
      ensures store.items == old(store.items)[ResetsKey :=
        ResetList(ResetsIn(old(store.items)) + [ResetEntry(email, token, now)])]
      ensures r == Response(true, Some(ResetSent), None)
    {
      var stored := store.GetItem(ResetsKey);
      var resets := if stored.Some? && stored.value.ResetList? then stored.value.resets else [];
      resets := resets + [ResetEntry(email, token, now)];
      store.SetItem(ResetsKey, ResetList(resets));
      r := Response(true, Some(ResetSent), None);
    }

    /**
     * `resetPassword`: an unknown token fails and changes nothing; a known
     * one sets the password of the first user with the request's email (when
     * there is one), removes the first request with the token and succeeds.
     * No expiry is checked.
     */
    method ResetPassword(token: string, newPassword: string) returns (r: Response<()>)
      modifies store
      ensures var resets := ResetsIn(old(store.items));
        var found := FindIndex(resets, HasResetToken(token));
        found.None? ==> store.items == old(store.items) && r == Failure(BadResetToken)
      ensures var resets := ResetsIn(old(store.items));
        var found := FindIndex(resets, HasResetToken(token));
        found.Some? ==>
          var changed := SetPassword(UsersIn(old(store.items)), resets[found.value].email, newPassword);
          var written := if changed.Some? then old(store.items)[UsersKey := UserList(changed.value)] else old(store.items);
          && store.items == written[ResetsKey := ResetList(RemoveAt(resets, found.value))]
          && r == Response(true, Some(PasswordChanged), None)
    {
      var stored := store.GetItem(ResetsKey);
      var resets := if stored.Some? && stored.value.ResetList? then stored.value.resets else [];
      var idx := FindIndex(resets, HasResetToken(token));
      if idx.None? {
        r := Failure(BadResetToken);
        return;
      }
      var storedUsers := store.GetItem(UsersKey);
      var users := if storedUsers.Some? && storedUsers.value.UserList? then storedUsers.value.users else [];
      var userIndex := FindIndex(users, HasEmail(resets[idx.value].email));
      if userIndex.Some? {
        var j := userIndex.value;
        users := users[j := users[j].(password := Some(newPassword))];
        store.SetItem(UsersKey, UserList(users));
      }
      resets := RemoveAt(resets, idx.value);
      store.SetItem(ResetsKey, ResetList(resets));
      r := Response(true, Some(PasswordChanged), None);
    }
  }
}
