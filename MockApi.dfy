/**
 * The in-memory back-end selected while no server exists: module-level
 * tables of users, medications, reminders and password-reset requests,
 * changed in place by the calls. The delays before each answer, the console
 * output and the server branch are not modelled; the current time, the
 * millisecond clock and the random reset token are parameters.
 */
module MockApi {
  import opened Wrappers
  import opened Text
  import opened Tables
  import opened Models
  import opened UserTable

  /** A pending password reset; `createdAtMs` is the `Date` of the request in milliseconds. */
  datatype ResetRequest = ResetRequest(email: string, token: string, createdAtMs: int)

  /** `24 * 60 * 60 * 1000`: how long a reset token stays usable. */
  const ResetValidityMs := 24 * 60 * 60 * 1000

  const DemoEmail := "test@example.com"
  const DemoPassword := "password"
  const DemoToken := "fake-jwt-token"

  // The messages of the responses.
  const BadCredentials := "Email ou mot de passe incorrect"
  const EmailTaken := "Cet email est déjà utilisé par un autre compte"
  const Registered := "Inscription réussie"
  const MedicationUpdated := "Médicament mis à jour avec succès"
  const MedicationAdded := "Médicament ajouté avec succès"
  const ResetRequested := "Si un compte est associé à cet email, un lien de réinitialisation sera envoyé."
  const UnknownResetToken := "Token de réinitialisation invalide ou expiré."
  const ResetExpired := "Le lien de réinitialisation a expiré. Veuillez faire une nouvelle demande."
  const PasswordReset := "Mot de passe réinitialisé avec succès."
  const RegisterTokenPrefix := "fake-jwt-token-"

  function HasToken(token: string): ResetRequest -> bool {
    (r: ResetRequest) => r.token == token
  }

  /** `Médicament avec l'ID ${id} non trouvé`. */
  function NotFoundMessage(id: string): string {
    "Médicament avec l'ID " + id + " non trouvé"
  }

  /**
   * A reset requested with a token no pending request carries is the one
   * that token finds, and consuming it gives back the list as it was.
   */
  lemma FreshResetRoundTrip(resets: seq<ResetRequest>, r: ResetRequest)
    requires FindIndex(resets, HasToken(r.token)).None?
    ensures FindIndex(resets + [r], HasToken(r.token)) == Some(|resets|)
    ensures RemoveAt(resets + [r], |resets|) == resets
  {
    FindIndexAppend(resets, r, HasToken(r.token));
    RemoveAppended(resets, r);
  }

  /** `mockData` together with `mockApiImplementation`. */
  class MockBackend {
    var users: seq<User>
    var medications: seq<Medication>
    var reminders: seq<Reminder>
    var passwordResets: seq<ResetRequest>

    /**
     * What every call keeps: the seed user stays first, identifiers are
     * serial and no two users share an email.
     */
    ghost predicate Valid()
      reads this
    {
      UserTableOk(users)
    }

    /** The module-level `mockData` object at start-up. */
    constructor()
      ensures users == [SeedUser] && medications == SeedMedications
      ensures reminders == SeedReminders && passwordResets == []
      ensures Valid()
    {
      users := [SeedUser];
      medications := SeedMedications;
      reminders := SeedReminders;
      passwordResets := [];
      SeedTableOk();
    }

    /**
     * `login`: only the demonstration credentials succeed, and they always
     * yield the seed user with the fixed token, whatever was registered since.
     */
    method Login(email: string, password: string) returns (r: Response<AuthData>)
      requires Valid()
      ensures r.success <==> email == DemoEmail && password == DemoPassword
      ensures r.success ==> r == Response(true, None, Some(AuthData(DemoToken, SeedUser)))
      ensures !r.success ==> r == Failure(BadCredentials)
    {
      if email == DemoEmail && password == DemoPassword {
        r := Response(true, None, Some(AuthData(DemoToken, users[0])));
      } else {
        r := Failure(BadCredentials);
      }
    }

    /**
     * `register`: an email already present fails and changes nothing;
     * otherwise exactly one user is appended, with identifier `length + 1`,
     * no stored password and the phone defaulting to the empty string.
     */
    method Register(data: RegisterData, now: string, nowMs: nat) returns (r: Response<AuthData>)
      requires Valid()
      modifies this
      ensures Valid()
      ensures medications == old(medications) && reminders == old(reminders)
      ensures passwordResets == old(passwordResets)
      ensures (exists i :: 0 <= i < |old(users)| && old(users)[i].email == data.email) ==>
        users == old(users) && r == Failure(EmailTaken)
      ensures (forall i :: 0 <= i < |old(users)| ==> old(users)[i].email != data.email) ==>
        && users == old(users) + [User(NatToString(|old(users)| + 1), data.email, None, data.firstName,
                                       data.lastName, Some(PhoneOrEmpty(data.phone)), Some(now), Some(now))]
        && r == Response(true, Some(Registered),
                         Some(AuthData(RegisterTokenPrefix + NatToString(nowMs), users[|users| - 1])))
    {
      var existing := FindIndex(users, HasEmail(data.email));
      if existing.Some? {
        assert users[existing.value].email == data.email;
        r := Failure(EmailTaken);
        return;
      }
      var newUser := User(NatToString(|users| + 1), data.email, None, data.firstName, data.lastName,
                          Some(PhoneOrEmpty(data.phone)), Some(now), Some(now));
      AppendUserKeepsTable(users, newUser);
      users := users + [newUser];
      r := Response(true, Some(Registered),
                    Some(AuthData(RegisterTokenPrefix + NatToString(nowMs), newUser)));
    }

    /** `getMedications`: the whole table. */
    method GetMedications() returns (r: Response<seq<Medication>>)
      ensures r == Response(true, None, Some(medications))
    {
      r := Response(true, None, Some(medications));
    }

    /** `getMedicationById`: the first medication carrying the identifier, or a not-found failure. */
    method GetMedicationById(id: string) returns (r: Response<Medication>)
      ensures r.success <==> exists i :: 0 <= i < |medications| && medications[i].id == id
      ensures r.success ==> r.message.None? && exists i ::
        && 0 <= i < |medications| && medications[i].id == id
        && (forall j :: 0 <= j < i ==> medications[j].id != id)
        && r.data == Some(medications[i])
      ensures !r.success ==> r == Failure(NotFoundMessage(id))
    {
      var found := FindIndex(medications, HasMedicationId(id));
      if found.Some? {
        r := Response(true, None, Some(medications[found.value]));
      } else {
        r := Failure(NotFoundMessage(id));
      }
    }

    /**
     * `updateMedication`: an unknown identifier fails and changes nothing;
     * otherwise the first medication carrying it is replaced in place by the
     * merge of the update into it, stamped with the current time, and every
     * other entry stays as it was.
     */
    method UpdateMedication(id: string, patch: MedicationPatch, now: string) returns (r: Response<Medication>)
      requires Valid()
      modifies this
      ensures Valid()
      ensures users == old(users) && reminders == old(reminders) && passwordResets == old(passwordResets)
      ensures |medications| == |old(medications)|
      ensures var found := FindIndex(old(medications), HasMedicationId(id));
        found.None? ==> medications == old(medications) && r == Failure(NotFoundMessage(id))
      ensures var found := FindIndex(old(medications), HasMedicationId(id));
        found.Some? ==>
          && medications == old(medications)[found.value := ApplyPatch(old(medications)[found.value], patch, now)]
          && r == Response(true, Some(MedicationUpdated), Some(medications[found.value]))
    {
      var index := FindIndex(medications, HasMedicationId(id));
      if index.None? {
        r := Failure(NotFoundMessage(id));
        return;
      }
      var updated := ApplyPatch(medications[index.value], patch, now);
      medications := medications[index.value := updated];
      r := Response(true, Some(MedicationUpdated), Some(updated));
    }

    /** `addMedication`: one medication appended, with identifier `length + 1` and both timestamps set. */
    method AddMedication(draft: MedicationDraft, now: string) returns (r: Response<Medication>)
      requires Valid()
      modifies this
      ensures Valid()
      ensures users == old(users) && reminders == old(reminders) && passwordResets == old(passwordResets)
      ensures medications == old(medications) + [MedicationFromDraft(draft, NatToString(|old(medications)| + 1), now)]
      ensures r == Response(true, Some(MedicationAdded), Some(medications[|medications| - 1]))
    {
      var newMedication := MedicationFromDraft(draft, NatToString(|medications| + 1), now);
      medications := medications + [newMedication];
      r := Response(true, Some(MedicationAdded), Some(newMedication));
    }

    /** `getReminders`: the whole table. */
    method GetReminders() returns (r: Response<seq<Reminder>>)
      ensures r == Response(true, None, Some(reminders))
    {
      r := Response(true, None, Some(reminders));
    }

    /**
     * `requestPasswordReset`: always succeeds with the same message and
     * records one request, whether or not the email belongs to a user.
     */
    method RequestPasswordReset(email: string, token: string, nowMs: int) returns (r: Response<()>)
      requires Valid()
      modifies this
      ensures Valid()
      ensures users == old(users) && medications == old(medications) && reminders == old(reminders)
      ensures passwordResets == old(passwordResets) + [ResetRequest(email, token, nowMs)]
      ensures r == Response(true, Some(ResetRequested), None)
    {
      passwordResets := passwordResets + [ResetRequest(email, token, nowMs)];
      r := Response(true, Some(ResetRequested), None);
    }

    /**
     * `resetPassword`: an unknown token fails; a request older than a day
     * fails and stays recorded; otherwise the first request with the token is
     * removed and the call succeeds. The new password is not stored.
     */
    method ResetPassword(token: string, newPassword: string, nowMs: int) returns (r: Response<()>)
      requires Valid()
      modifies this
      ensures Valid()
      ensures users == old(users) && medications == old(medications) && reminders == old(reminders)
      ensures var found := FindIndex(old(passwordResets), HasToken(token));
        found.None? ==>
          passwordResets == old(passwordResets) && r == Failure(UnknownResetToken)
      ensures var found := FindIndex(old(passwordResets), HasToken(token));
        found.Some? && nowMs - old(passwordResets)[found.value].createdAtMs > ResetValidityMs ==>
          && passwordResets == old(passwordResets)
          && r == Failure(ResetExpired)
      ensures var found := FindIndex(old(passwordResets), HasToken(token));
        found.Some? && nowMs - old(passwordResets)[found.value].createdAtMs <= ResetValidityMs ==>
          && passwordResets == RemoveAt(old(passwordResets), found.value)
          && r == Response(true, Some(PasswordReset), None)
    {
      var found := FindIndex(passwordResets, HasToken(token));
      if found.None? {
        r := Failure(UnknownResetToken);
        return;
      }
      var request := passwordResets[found.value];
      var tokenAge := nowMs - request.createdAtMs;
      if tokenAge > ResetValidityMs {
        r := Failure(ResetExpired);
        return;
      }
      var index := FindIndex(passwordResets, HasToken(token));
      if index.Some? {
        passwordResets := RemoveAt(passwordResets, index.value);
      }
      r := Response(true, Some(PasswordReset), None);
    }
  }
}
