/**
 * The records both back-ends keep in their tables: users, medications and
 * reminders, the response envelope every call returns, and the object
 * spreads that build a new medication or reminder from a draft and merge a
 * partial update into a medication. Numbers are unbounded integers.
 */
module Models {
  import opened Wrappers
  import opened Text
  import opened Tables

  /** `User`; `password` is present only in the storage-backed table. */
  datatype User = User(
    id: string,
    email: string,
    password: Option<string>,
    firstName: string,
    lastName: string,
    phone: Option<string>,
    createdAt: Option<string>,
    updatedAt: Option<string>)

  /** The argument of `register`. */
  datatype RegisterData = RegisterData(
    email: string,
    password: string,
    firstName: string,
    lastName: string,
    phone: Option<string>)

  /** `userData.phone || ''`: an absent or empty phone becomes the empty string. */
  function PhoneOrEmpty(phone: Option<string>): (r: string)
    ensures r == "" <==> phone.None? || phone.value == ""
    ensures r != "" ==> phone == Some(r)
  {
    if phone.Some? then phone.value else ""
  }

  /** `Medication`. */
  datatype Medication = Medication(
    id: string,
    name: string,
    description: Option<string>,
    dosage: int,
    unit: string,
    currentStock: int,
    initialStock: int,
    reorderThreshold: int,
    frequency: string,
    isActive: bool,
    color: string,
    expiryDate: Option<string>,
    notes: Option<string>,
    patientId: string,
    createdAt: Option<string>,
    updatedAt: Option<string>)

  /** `Omit<Medication, 'id' | 'createdAt' | 'updatedAt'>`, the argument of `addMedication`. */
  datatype MedicationDraft = MedicationDraft(
    name: string,
    description: Option<string>,
    dosage: int,
    unit: string,
    currentStock: int,
    initialStock: int,
    reorderThreshold: int,
    frequency: string,
    isActive: bool,
    color: string,
    expiryDate: Option<string>,
    notes: Option<string>,
    patientId: string)

  /** `Partial<Medication>`, the argument of `updateMedication`: `None` is a property the object does not carry. */
  datatype MedicationPatch = MedicationPatch(
    id: Option<string>,
    name: Option<string>,
    description: Option<string>,
    dosage: Option<int>,
    unit: Option<string>,
    currentStock: Option<int>,
    initialStock: Option<int>,
    reorderThreshold: Option<int>,
    frequency: Option<string>,
    isActive: Option<bool>,
    color: Option<string>,
    expiryDate: Option<string>,
    notes: Option<string>,
    patientId: Option<string>,
    createdAt: Option<string>,
    updatedAt: Option<string>)

  /** The empty object `{}`. */
  const NoChanges := MedicationPatch(None, None, None, None, None, None, None, None,
                                     None, None, None, None, None, None, None, None)

  /** `{ ...data, id, createdAt: now, updatedAt: now }`. */
  function MedicationFromDraft(d: MedicationDraft, id: string, now: string): (m: Medication)
    ensures m.id == id && m.createdAt == Some(now) && m.updatedAt == Some(now)
    ensures DraftOf(m) == d
  {
    Medication(id, d.name, d.description, d.dosage, d.unit, d.currentStock, d.initialStock,
               d.reorderThreshold, d.frequency, d.isActive, d.color, d.expiryDate, d.notes,
               d.patientId, Some(now), Some(now))
  }

  /** The draft part of a medication: everything except the identifier and the two timestamps. */
  function DraftOf(m: Medication): MedicationDraft {
    MedicationDraft(m.name, m.description, m.dosage, m.unit, m.currentStock, m.initialStock,
                    m.reorderThreshold, m.frequency, m.isActive, m.color, m.expiryDate, m.notes,
                    m.patientId)
  }

  /** A spread property: the patch's value when the patch carries it, the old one otherwise. */
  function Pick<T>(p: Option<T>, current: T): T {
    if p.Some? then p.value else current
  }

  /** An optional property under a spread: a carried value replaces the old one. */
  function PickOpt<T>(p: Option<T>, current: Option<T>): Option<T> {
    if p.Some? then p else current
  }

  /**
   * `{ ...m, ...patch, updatedAt: now }`: every property the patch carries,
   * the identifier and creation time included, takes the patch's value, every
   * other keeps the medication's, and the modification time is `now` whatever
   * the patch says.
   */
  function ApplyPatch(m: Medication, p: MedicationPatch, now: string): (r: Medication)
    ensures (p.id.Some? ==> r.id == p.id.value) && (p.id.None? ==> r.id == m.id)
    ensures (p.name.Some? ==> r.name == p.name.value) && (p.name.None? ==> r.name == m.name)
    ensures (p.description.Some? ==> r.description == p.description) && (p.description.None? ==> r.description == m.description)
    ensures (p.dosage.Some? ==> r.dosage == p.dosage.value) && (p.dosage.None? ==> r.dosage == m.dosage)
    ensures (p.unit.Some? ==> r.unit == p.unit.value) && (p.unit.None? ==> r.unit == m.unit)
    ensures (p.currentStock.Some? ==> r.currentStock == p.currentStock.value) && (p.currentStock.None? ==> r.currentStock == m.currentStock)
    ensures (p.initialStock.Some? ==> r.initialStock == p.initialStock.value) && (p.initialStock.None? ==> r.initialStock == m.initialStock)
    ensures (p.reorderThreshold.Some? ==> r.reorderThreshold == p.reorderThreshold.value) && (p.reorderThreshold.None? ==> r.reorderThreshold == m.reorderThreshold)
    ensures (p.frequency.Some? ==> r.frequency == p.frequency.value) && (p.frequency.None? ==> r.frequency == m.frequency)
    ensures (p.isActive.Some? ==> r.isActive == p.isActive.value) && (p.isActive.None? ==> r.isActive == m.isActive)
    ensures (p.color.Some? ==> r.color == p.color.value) && (p.color.None? ==> r.color == m.color)
    ensures (p.expiryDate.Some? ==> r.expiryDate == p.expiryDate) && (p.expiryDate.None? ==> r.expiryDate == m.expiryDate)
    ensures (p.notes.Some? ==> r.notes == p.notes) && (p.notes.None? ==> r.notes == m.notes)
    ensures (p.patientId.Some? ==> r.patientId == p.patientId.value) && (p.patientId.None? ==> r.patientId == m.patientId)
    ensures (p.createdAt.Some? ==> r.createdAt == p.createdAt) && (p.createdAt.None? ==> r.createdAt == m.createdAt)
    ensures r.updatedAt == Some(now)
  {
    Medication(
      Pick(p.id, m.id), Pick(p.name, m.name), PickOpt(p.description, m.description),
      Pick(p.dosage, m.dosage), Pick(p.unit, m.unit), Pick(p.currentStock, m.currentStock),
      Pick(p.initialStock, m.initialStock), Pick(p.reorderThreshold, m.reorderThreshold),
      Pick(p.frequency, m.frequency), Pick(p.isActive, m.isActive), Pick(p.color, m.color),
      PickOpt(p.expiryDate, m.expiryDate), PickOpt(p.notes, m.notes),
      Pick(p.patientId, m.patientId), PickOpt(p.createdAt, m.createdAt), Some(now))
  }

  /** `{ ...p, ...q }`: the later patch wins on every property both carry. */
  function MergePatches(p: MedicationPatch, q: MedicationPatch): MedicationPatch {
    MedicationPatch(
      PickOpt(q.id, p.id), PickOpt(q.name, p.name), PickOpt(q.description, p.description),
      PickOpt(q.dosage, p.dosage), PickOpt(q.unit, p.unit), PickOpt(q.currentStock, p.currentStock),
      PickOpt(q.initialStock, p.initialStock), PickOpt(q.reorderThreshold, p.reorderThreshold),
      PickOpt(q.frequency, p.frequency), PickOpt(q.isActive, p.isActive), PickOpt(q.color, p.color),
      PickOpt(q.expiryDate, p.expiryDate), PickOpt(q.notes, p.notes),
      PickOpt(q.patientId, p.patientId), PickOpt(q.createdAt, p.createdAt),
      PickOpt(q.updatedAt, p.updatedAt))
  }

  /** An empty update changes nothing but the modification time. */
  lemma ApplyNoChanges(m: Medication, now: string)
    ensures ApplyPatch(m, NoChanges, now) == m.(updatedAt := Some(now))
  {
  }

  /** Applying the same update twice at the same time is applying it once. */
  lemma ApplyPatchIdempotent(m: Medication, p: MedicationPatch, now: string)
    ensures ApplyPatch(ApplyPatch(m, p, now), p, now) == ApplyPatch(m, p, now)
  {
  }

  /** Two successive updates are one update by the merged patch, stamped with the later time. */
  lemma ApplyPatchComposes(m: Medication, p: MedicationPatch, q: MedicationPatch, t1: string, t2: string)
    ensures ApplyPatch(ApplyPatch(m, p, t1), q, t2) == ApplyPatch(m, MergePatches(p, q), t2)
  {
  }

  /** An update that carries none of the draft properties leaves the draft part of a medication alone. */
  lemma ApplyPatchKeepsDraft(m: Medication, p: MedicationPatch, now: string)
    requires p.name.None? && p.description.None? && p.dosage.None? && p.unit.None?
    requires p.currentStock.None? && p.initialStock.None? && p.reorderThreshold.None?
    requires p.frequency.None? && p.isActive.None? && p.color.None? && p.expiryDate.None?
    requires p.notes.None? && p.patientId.None?
    ensures DraftOf(ApplyPatch(m, p, now)) == DraftOf(m)
  {
  }

  /** A reminder's copy of the medication it concerns. */
  datatype MedicationSummary = MedicationSummary(id: string, name: string, dosage: int, unit: string, color: string)

  datatype ReminderStatus = Pending | Taken | Skipped | Missed

  /** `Reminder`. */
  datatype Reminder = Reminder(
    id: string,
    medicationId: string,
    medication: MedicationSummary,
    scheduledFor: string,
    status: ReminderStatus,
    dosage: int,
    unit: string,
    patientId: string,
    notes: Option<string>,
    createdAt: Option<string>,
    updatedAt: Option<string>)

  /** `Omit<Reminder, 'id' | 'createdAt' | 'updatedAt'>`, the argument of `addReminder`. */
  datatype ReminderDraft = ReminderDraft(
    medicationId: string,
    medication: MedicationSummary,
    scheduledFor: string,
    status: ReminderStatus,
    dosage: int,
    unit: string,
    patientId: string,
    notes: Option<string>)

  /** `{ ...reminder, id, createdAt: now, updatedAt: now }`. */
  function ReminderFromDraft(d: ReminderDraft, id: string, now: string): (r: Reminder)
    ensures r.id == id && r.createdAt == Some(now) && r.updatedAt == Some(now)
    ensures ReminderDraftOf(r) == d
  {
    Reminder(id, d.medicationId, d.medication, d.scheduledFor, d.status, d.dosage, d.unit,
             d.patientId, d.notes, Some(now), Some(now))
  }

  function ReminderDraftOf(r: Reminder): ReminderDraft {
    ReminderDraft(r.medicationId, r.medication, r.scheduledFor, r.status, r.dosage, r.unit,
                  r.patientId, r.notes)
  }

  /** `ApiResponse<T>`: `message` and `data` are optional properties. */
  datatype Response<T> = Response(success: bool, message: Option<string>, data: Option<T>)

  /** `{ token, user }`, the payload of a successful `login` or `register`. */
  datatype AuthData = AuthData(token: string, user: User)

  function Failure<T>(message: string): (r: Response<T>)
    ensures !r.success && r.message == Some(message) && r.data.None?
  {
    Response(false, Some(message), None)
  }

  /** `response.message || fallback`: an absent or empty message gives way to the fallback. */
  function MessageOr(message: Option<string>, fallback: string): (r: string)
    ensures message.Some? && message.value != "" ==> r == message.value
    ensures message.None? || message.value == "" ==> r == fallback
  {
    if message.Some? && message.value != "" then message.value else fallback
  }

  // ---------------------------------------------------- table lookups

  function HasEmail(email: string): User -> bool {
    (u: User) => u.email == email
  }

  function HasMedicationId(id: string): Medication -> bool {
    (m: Medication) => m.id == id
  }

  /** The identifier `length + 1` is carried by no medication of a serially numbered table. */
  lemma NextMedicationIdFresh(meds: seq<Medication>)
    requires forall j :: 0 <= j < |meds| ==> meds[j].id == NatToString(j + 1)
    ensures forall j :: 0 <= j < |meds| ==> meds[j].id != NatToString(|meds| + 1)
  {
    forall j | 0 <= j < |meds| ensures meds[j].id != NatToString(|meds| + 1) {
      NatToStringInjective(j + 1, |meds| + 1);
    }
  }

  /**
   * A medication added under an identifier no entry carries (as the next
   * serial identifier is, by `NextMedicationIdFresh`) is the one a later
   * lookup of that identifier finds.
   */
  lemma AddedMedicationFound(meds: seq<Medication>, m: Medication)
    requires forall j :: 0 <= j < |meds| ==> meds[j].id != m.id
    ensures FindIndex(meds + [m], HasMedicationId(m.id)) == Some(|meds|)
  {
    assert forall j :: 0 <= j < |meds| ==> !HasMedicationId(m.id)(meds[j]);
    FindIndexAfterMisses(meds, m, HasMedicationId(m.id));
  }

  // ------------------------------------------------------------ seed data

  const SeedTime := "2024-01-01T00:00:00.000Z"
  const SeedTime2 := "2024-01-02T00:00:00.000Z"

  /** The one user the in-memory back-end starts with (no password is kept there). */
  const SeedUser := User("1", "test@example.com", None, "Jean", "Dupont", Some("0612345678"),
                         Some(SeedTime), Some(SeedTime))

  /** The two medications both back-ends start with. */
  const SeedMedications := [
    Medication("1", "Paracétamol", Some("Contre la douleur et la fièvre"), 1000, "mg", 24, 30, 5,
               "asNeeded", true, "#2196F3", Some("2025-12-31"), Some("Prendre avec un verre d'eau"),
               "1", Some(SeedTime), Some(SeedTime)),
    Medication("2", "Ibuprofène", Some("Anti-inflammatoire"), 400, "mg", 3, 20, 5,
               "daily", true, "#F44336", Some("2025-10-15"), Some("Prendre avec de la nourriture"),
               "1", Some(SeedTime2), Some(SeedTime2))]

  /** The two reminders the in-memory back-end starts with. */
  const SeedReminders := [
    Reminder("1", "1", MedicationSummary("1", "Paracétamol", 1000, "mg", "#2196F3"),
             "2025-04-30T08:00:00.000Z", Pending, 1, "tablet", "1", Some(""),
             Some(SeedTime), Some(SeedTime)),
    Reminder("2", "2", MedicationSummary("2", "Ibuprofène", 400, "mg", "#F44336"),
             "2025-04-30T12:00:00.000Z", Pending, 1, "tablet", "1", Some("Prendre avec de la nourriture"),
             Some(SeedTime2), Some(SeedTime2))]
}
