# MediStock core, modelled in Dafny

This project models the part of the MediStock medication app that holds its own logic. The app is written in TypeScript and React Native. The model covers:

- **The prescription-text parser** of the scanning screen (`parseMedications`). OCR text is split into lines and blank lines are dropped. Every line the medication pattern matches yields one provisional entry: a capitalised name, the dosage digits, the lower-cased unit and, when their patterns match, the frequency and the duration. The four regular expressions appear twice:
  - ghost predicates that say which slices of a line have the shape each pattern describes;
  - deterministic matchers, proved to return the match a JavaScript engine reports (leftmost start, then the longest greedy capture).
- **The in-memory back-end** (`app/services/api.ts`). Module-level tables of users, medications, reminders and password-reset requests, changed in place by each call. It is a class with `seq` fields. Its invariant: the seed user comes first, user identifiers are serial and no email is registered twice.
- **The storage-backed back-end** (`services/api.ts`). Users, reminders and reset requests live under their own keys of the device store (AsyncStorage, modelled as a `map` field). Medications live in a table held by the object.
- **The field validators** of the registration and sign-in screens, with the pattern `^[^\s@]+@[^\s@]+\.[^\s@]+$` given two definitions proved equivalent. Both screens are classes whose handlers run the validators and call the authentication provider only when every check passes.
- **The two authentication providers.**
  - `src/contexts` works over the storage-backed back-end.
  - `app/contexts` works over the in-memory back-end and simulates registration.
  - Both are classes with `isAuthenticated`, `user` and `isLoading`, plus the two session keys `userToken` and `userData` of the store.

Integers are unbounded. Strings are `seq<char>`. The current time, the millisecond clock and the random tokens and identifiers are parameters of the operations that use them.

An entry's name can be empty: the line `" 500mg"` gives the name `""`, because whitespace belongs to the name class (components/ScanPrescription.tsx:190) and the name is trimmed afterwards (components/ScanPrescription.tsx:198).

## Model

| member | source | states |
|---|---|---|
| Text.UpperChar | components/ScanPrescription.tsx:204 | upper-casing one character yields one or two characters, none of them a lower-case ASCII or Latin-1 letter; a character that is not a lower-case letter is kept; only `ß` yields two, `SS`; `ÿ` yields U+0178 and `µ` U+039C; any other single result lower-cases back to the lower-case form of the input (to the input itself when it is a lower-case letter other than `ÿ` and `µ`) |
| Text.Lower | components/ScanPrescription.tsx:204-206 | `toLowerCase` keeps the length and lower-cases every character where it stands |
| Text.LowerIdempotent | components/ScanPrescription.tsx:204-206 | lower-casing an already lower-cased string changes nothing |
| Text.Capitalize | components/ScanPrescription.tsx:204 | the result is the original length or one longer; it is the upper-cased first character followed by the lower-cased rest of the name |
| Text.LeadingSpaces | components/ScanPrescription.tsx:198 | counts exactly the whitespace run at the start (the next character, if any, is not whitespace) |
| Text.TrailingSpaces | components/ScanPrescription.tsx:198 | counts exactly the whitespace run at the end |
| Text.Trim | components/ScanPrescription.tsx:186 | `trim` returns a slice of the input that is empty exactly when the input is all whitespace; it has no whitespace at either end and only whitespace lies outside it |
| Text.TrimIdempotent | components/ScanPrescription.tsx:198 | trimming twice is trimming once |
| Text.RemoveSpaces | app/auth/RegisterScreen.tsx:117 | `replace(/\s/g, '')` leaves no whitespace, keeps clean text as it is, and is empty exactly when the input is all whitespace |
| Text.RemoveSpacesKeeps | app/auth/RegisterScreen.tsx:117 | removing whitespace distributes over concatenation, so character order is kept |
| Text.Utf16Length | app/auth/RegisterScreen.tsx:92 | `length` counts UTF-16 code units: between one and two per character, exactly one each within the Basic Multilingual Plane |
| Text.DigitChar | app/services/api.ts:156 | a digit value renders as the matching decimal digit character |
| Text.NatToString | app/services/api.ts:156 | `toString()` of a count is a non-empty string of decimal digits without a leading zero |
| Text.DecimalRoundTrip | app/services/api.ts:156 | reading back a rendered number gives the number |
| Text.NatToStringInjective | app/services/api.ts:246 | two numbers render equal exactly when they are equal |
| Text.NatToStringInjectiveAll | app/services/api.ts:246 | the same, for all pairs at once |
| Tables.FindIndex | app/services/api.ts:214 | `findIndex`: the reported position satisfies the test and no earlier one does; `-1` (None) exactly when none does |
| Tables.FindIndexUnique | app/services/api.ts:195 | any position that satisfies the test with no earlier one doing so is the reported one |
| Tables.FindIndexAppend | app/services/api.ts:285-304 | after a `push`, an existing hit is unchanged and the new element is found only when nothing before it matched |
| Tables.FindIndexAfterMisses | app/services/api.ts:252 | an element pushed after a run of misses is the first hit |
| Tables.RemoveAt | app/services/api.ts:332 | `splice(i, 1)` removes exactly the element at `i`, keeps the others in order, and is a permutation minus that element |
| Tables.RemoveAppended | app/services/api.ts:285-333 | removing the element just pushed restores the table |
| Models.PhoneOrEmpty | app/services/api.ts:160 | `phone \|\| ''` is empty exactly when the phone is absent or empty, and is otherwise the phone |
| Models.MedicationFromDraft | app/services/api.ts:244-249 | the new medication carries the given identifier and both timestamps, and its draft part is exactly the draft given |
| Models.ApplyPatch | app/services/api.ts:224-228 | every property the patch carries, identifier and creation time included, takes the patch's value; every property it does not carry keeps the medication's; the modification time is the current time whatever the patch says |
| Models.ApplyNoChanges | app/services/api.ts:224-228 | merging `{}` changes only the modification time |
| Models.ApplyPatchIdempotent | app/services/api.ts:224-228 | applying the same update twice at the same time is applying it once |
| Models.ApplyPatchComposes | app/services/api.ts:224-228 | two successive updates are one update by the merged patch, stamped with the later time |
| Models.ApplyPatchKeepsDraft | app/services/api.ts:224-228 | an update carrying no draft property leaves the draft part alone |
| Models.ReminderFromDraft | services/api.ts:166-171 | the new reminder carries the given identifier and both timestamps, and its draft part is the draft given |
| Models.Failure | app/services/api.ts:128-131 | a failure has `success` false, its message and no data |
| Models.MessageOr | src/contexts/AuthContext.tsx:126 | `message \|\| fallback`: a non-empty message wins, otherwise the fallback |
| Models.NextMedicationIdFresh | app/services/api.ts:246 | in a serially numbered table, the identifier `length + 1` is carried by no entry |
| Models.AddedMedicationFound | app/services/api.ts:195-252 | a medication added under an unused identifier is what a later lookup of that identifier finds |
| UserTable.SerialIdAt | app/services/api.ts:156 | in a serially numbered table, user `i` has identifier `i + 1` |
| UserTable.SeedTableOk | app/services/api.ts:17-28 | the start-up table holding only the seed user is well formed |
| UserTable.AppendFreshEmail | app/services/api.ts:145-166 | appending a user with an unused email keeps emails distinct |
| UserTable.AppendKeepsSerial | app/services/api.ts:156-166 | appending a user with identifier `length + 1` keeps identifiers serial |
| UserTable.SeedUserStaysFirst | app/services/api.ts:123-166 | appending never displaces the seed user that `login` returns |
| UserTable.AppendUserKeepsTable | app/services/api.ts:145-166 | registration's append keeps the whole table invariant |
| UserTable.UserIdsUnique | app/services/api.ts:156 | no two users of a well-formed table share an identifier |
| MockApi.FreshResetRoundTrip | app/services/api.ts:285-333 | a request with a fresh token is the one that token finds, and consuming it restores the request list |
| MockApi.MockBackend.constructor | app/services/api.ts:17-109 | the tables start as the seed data, with no reset requests, and satisfy the invariant |
| MockApi.MockBackend.Login | app/services/api.ts:118-131 | succeeds exactly on the demonstration credentials, and then always answers with the seed user and the fixed token; otherwise the credentials failure |
| MockApi.MockBackend.Register | app/services/api.ts:145-178 | a taken email fails and changes nothing; otherwise exactly one user is appended with identifier `length + 1` and the phone defaulting to `''`, the invariant is kept and the other tables are untouched |
| MockApi.MockBackend.GetMedications | app/services/api.ts:185-188 | answers with the whole medication table |
| MockApi.MockBackend.GetMedicationById | app/services/api.ts:195-207 | succeeds exactly when some medication carries the identifier, and then answers with the first such one; otherwise the not-found message naming the identifier |
| MockApi.MockBackend.UpdateMedication | app/services/api.ts:214-237 | an unknown identifier fails and changes nothing; otherwise only the first matching entry is replaced by the merge, with the length kept |
| MockApi.MockBackend.AddMedication | app/services/api.ts:244-260 | exactly one medication is appended, with identifier `length + 1` and both timestamps |
| MockApi.MockBackend.GetReminders | app/services/api.ts:267-270 | answers with the whole reminder table |
| MockApi.MockBackend.RequestPasswordReset | app/services/api.ts:279-296 | always succeeds with the same message and records one request, whether or not the email is known |
| MockApi.MockBackend.ResetPassword | app/services/api.ts:304-338 | an unknown token fails; a request older than 24 hours fails and stays recorded; otherwise the first request with the token is removed and the call succeeds |
| DeviceStorage.UsersIn | services/api.ts:19-20 | an absent users key reads as the empty table; a stored table reads as itself |
| DeviceStorage.RemindersIn | services/api.ts:150-151 | the same for the reminders key |
| DeviceStorage.ResetsIn | services/api.ts:189-191 | the same for the reset-requests key |
| DeviceStorage.TablesIndependent | services/api.ts:5-7 | writing one table's key leaves the other two tables as they read before |
| DeviceStorage.Store.constructor | services/api.ts:1 | the device store starts empty |
| DeviceStorage.Store.GetItem | services/api.ts:19 | `getItem` finds a value exactly when the key is present, and it is the stored one |
| DeviceStorage.Store.SetItem | services/api.ts:72 | `setItem` changes that key only |
| DeviceStorage.Store.RemoveItem | src/contexts/AuthContext.tsx:140-141 | `removeItem` deletes that key only |
| StorageApi.LoginAnswer | services/api.ts:19-34 | succeeds exactly when some stored user has that email and that stored password, and then answers with the first such user and a clock-based token; otherwise the credentials failure |
| StorageApi.RegisterAnswer | services/api.ts:52-82 | a present email fails and keeps the table; otherwise the old table plus one user with identifier `length + 1`, the given password and the phone defaulting to `''` |
| StorageApi.SetPassword | services/api.ts:218-224 | no change exactly when no user has the email; otherwise only the first such user's password changes |
| StorageApi.RegisteredUserCanLogin | services/api.ts:19-82 | after a successful registration, `login` with the same email and password finds the new account |
| StorageApi.ResetUserCanLogin | services/api.ts:212-230 | after a password change, `login` with the email and the new password succeeds |
| StorageApi.StorageBackend.constructor | services/api.ts:239 | the medication table starts as the shared seed medications |
| StorageApi.StorageBackend.Login | services/api.ts:13-39 | answers as `LoginAnswer` over the stored users and changes nothing |
| StorageApi.StorageBackend.Register | services/api.ts:41-87 | answers as `RegisterAnswer`, and writes the users key back exactly when a user was appended |
| StorageApi.StorageBackend.GetMedications | services/api.ts:94-98 | answers with the whole `_meds` table |
| StorageApi.StorageBackend.GetMedicationById | services/api.ts:100-108 | succeeds exactly when some medication carries the identifier, answering with the first such one; otherwise the not-found message |
| StorageApi.StorageBackend.AddMedication | services/api.ts:110-123 | exactly one medication is appended, with identifier `length + 1` |
| StorageApi.StorageBackend.UpdateMedication | services/api.ts:125-142 | an unknown identifier fails and changes nothing; otherwise only the first matching entry is replaced by the merge |
| StorageApi.StorageBackend.GetReminders | services/api.ts:147-157 | answers with the stored reminder list, empty when the key is absent |
| StorageApi.StorageBackend.AddReminder | services/api.ts:159-179 | the stored list gains one reminder with identifier `length + 1`; only that key changes |
| StorageApi.StorageBackend.RequestPasswordReset | services/api.ts:184-201 | always succeeds and appends one request under its key; nothing else changes |
| StorageApi.StorageBackend.ResetPassword | services/api.ts:203-235 | an unknown token fails and changes nothing; a known one sets the password of the first user with the request's email, removes the first matching request and succeeds, with no expiry check |
| AuthSession.Restore | src/contexts/AuthContext.tsx:50-70 | signed in exactly when the token key is truthy and the user key holds a serialised user record; the user is then that record, otherwise signed out with no user |
| AuthSession.RestoreAfterSignOut | src/contexts/AuthContext.tsx:138-143 | once both session keys are removed, a restore is signed out |
| AuthSession.RestoreShowsWrittenRecord | app/contexts/AuthContext.tsx:56-58 | whatever record a sign-in writes, even `null`, is what a restore shows, signed in |
| SrcAuth.AuthProvider.constructor | src/contexts/AuthContext.tsx:40-42 | starts signed out, with no user, loading |
| SrcAuth.AuthProvider.RefreshAuthState | src/contexts/AuthContext.tsx:50-70 | the session becomes `Restore` of the store, and loading ends |
| SrcAuth.AuthProvider.Login | src/contexts/AuthContext.tsx:73-94 | returns the back-end's answer; on success it stores the token and the returned user and signs in as that user; otherwise nothing changes |
| SrcAuth.AuthProvider.Register | src/contexts/AuthContext.tsx:97-136 | on success it stores the new users table, the token and the user, and signs in; on failure it returns the message (or the generic one) and changes nothing |
| SrcAuth.AuthProvider.Logout | src/contexts/AuthContext.tsx:138-147 | removes both session keys and signs out |
| SrcAuth.RegisterFailureIsEmailTaken | src/contexts/AuthContext.tsx:121-128 | a registration refused by the back-end always shows the email-taken message, never the generic one |
| SrcAuth.LoginSurvivesRestart | src/contexts/AuthContext.tsx:77-84 | after a successful sign-in, a restart restores the same user |
| AppAuth.AuthProvider.constructor | app/contexts/AuthContext.tsx:40-42 | starts signed out, with no user, loading |
| AppAuth.AuthProvider.RefreshAuthState | app/contexts/AuthContext.tsx:50-70 | the session becomes `Restore` of the store, and loading ends |
| AppAuth.AuthProvider.Login | app/contexts/AuthContext.tsx:73-93 | as written: on the demonstration credentials it stores the token and, under `userData`, the user held before the call, then signs in as the seed user; otherwise nothing changes |
| AppAuth.AuthProvider.LoginFixed | app/contexts/AuthContext.tsx:73-93 | as intended: the same, but the returned seed user is what is stored |
| AppAuth.AuthProvider.Register | app/contexts/AuthContext.tsx:96-132 | always succeeds with a made-up token and a user copying the email and names, phone defaulting to `''`; touches neither session, store nor back-end |
| AppAuth.AuthProvider.Logout | app/contexts/AuthContext.tsx:135-144 | removes both session keys and signs out |
| AppAuth.StaleLoginScenario | app/contexts/AuthContext.tsx:80 | fresh install, demonstration sign-in, restart: signed in with no user |
| AppAuth.FixedLoginScenario | app/contexts/AuthContext.tsx:79-82 | the same sequence with the corrected sign-in restores the seed user |
| Forms.CheckName | app/auth/RegisterScreen.tsx:51-70 | a name is refused, with its required message, exactly when it holds only whitespace |
| Forms.EmailShapeMatchesPattern | app/auth/RegisterScreen.tsx:74 | the first-`@` reading of the email test accepts exactly what the regular expression matches |
| Forms.ShapeGivesPattern | app/auth/RegisterScreen.tsx:74 | an email of the first-`@` shape matches the pattern |
| Forms.PatternGivesShape | app/auth/RegisterScreen.tsx:74 | an email the pattern matches has the first-`@` shape |
| Forms.FirstAtSign | app/auth/RegisterScreen.tsx:74 | an `@` with no whitespace or `@` before it is the first `@` |
| Forms.DotDomain | app/auth/RegisterScreen.tsx:74 | two non-empty clean parts around a `.` form an acceptable domain |
| Forms.EmailHasOneAt | app/auth/RegisterScreen.tsx:74 | an accepted email has exactly one `@`, not at the start |
| Forms.CheckEmail | app/auth/RegisterScreen.tsx:73-85 | empty gives the required message; otherwise valid exactly when the pattern matches, with the malformed message when not |
| Forms.CheckPassword | app/auth/RegisterScreen.tsx:88-99 | empty gives the required message; otherwise valid exactly when at least 6 UTF-16 units long, with the too-short message when not |
| Forms.PasswordLengthInCharacters | app/auth/RegisterScreen.tsx:92 | six characters always suffice, and within the Basic Multilingual Plane six are needed |
| Forms.CheckConfirm | app/auth/RegisterScreen.tsx:102-113 | valid exactly when non-empty and equal to the password; the required or mismatch message otherwise |
| Forms.CheckPhone | app/auth/RegisterScreen.tsx:116-124 | an empty phone is accepted; otherwise valid exactly when ten digits remain once whitespace is removed |
| Forms.BlankPhoneRefused | app/auth/RegisterScreen.tsx:117 | a non-empty phone made only of whitespace is refused |
| Forms.PhoneSpacingIrrelevant | app/auth/RegisterScreen.tsx:117 | spacing never changes the verdict on a phone with some other character |
| Screens.RegisterChecksCoherent | app/auth/RegisterScreen.tsx:50-124 | each of the six checks is valid exactly when it leaves no error text |
| Screens.SubmittedIffNoErrors | app/auth/RegisterScreen.tsx:132-139 | the form is submitted exactly when the screen shows no field error |
| Screens.RegisterFeedback | app/auth/RegisterScreen.tsx:152-167 | success raises the success alert; failure sets a never-empty general error, the answer's message when it has one |
| Screens.LoginAlert | app/auth/LoginScreen.tsx:70-76 | no alert on success; otherwise a never-empty alert, the answer's message or `Identifiants incorrects` |
| Screens.RegisterForm.constructor | app/auth/RegisterScreen.tsx:28-48 | every field and error empty, not loading, no alert |
| Screens.RegisterForm.ValidateFirstName | app/auth/RegisterScreen.tsx:51-59 | returns the first-name verdict and sets only that error text |
| Screens.RegisterForm.ValidateLastName | app/auth/RegisterScreen.tsx:62-70 | returns the last-name verdict and sets only that error text |
| Screens.RegisterForm.ValidateEmail | app/auth/RegisterScreen.tsx:73-85 | returns the email verdict and sets only that error text |
| Screens.RegisterForm.ValidatePassword | app/auth/RegisterScreen.tsx:88-99 | returns the password verdict and sets only that error text |
| Screens.RegisterForm.ValidateConfirmPassword | app/auth/RegisterScreen.tsx:102-113 | returns the confirmation verdict and sets only that error text |
| Screens.RegisterForm.ValidatePhone | app/auth/RegisterScreen.tsx:116-124 | returns the phone verdict and sets only that error text |
| Screens.RegisterForm.HandleRegister | app/auth/RegisterScreen.tsx:127-175 | every error text is set by its validator; it submits exactly when all six pass, and then raises the success alert and ends loading; the general error ends empty |
| Screens.LoginForm.constructor | app/auth/LoginScreen.tsx:24-28 | both fields and both errors empty, not loading, no alert |
| Screens.LoginForm.ValidateEmail | app/auth/LoginScreen.tsx:31-43 | returns the email verdict, with the screen's own messages, and sets only that error |
| Screens.LoginForm.ValidatePassword | app/auth/LoginScreen.tsx:46-57 | returns the password verdict and sets only that error |
| Screens.LoginForm.HandleLogin | app/auth/LoginScreen.tsx:60-91 | both errors set; submits exactly when both checks pass; then only the demonstration account signs in, storing its token under `userToken` and, as `login` is written, the provider's user from before the call under `userData`, and any other attempt raises the credentials alert and leaves session and storage as they were; without submitting nothing else changes; the provider's loading flag is never touched |
| Screens.LoginForm.SignIn | app/auth/LoginScreen.tsx:64-90 | loading ends whatever the answer; on the demonstration account the token and the provider's previous user (`null` on a first sign-in, app/contexts/AuthContext.tsx:80) are stored and the session signed in with the seed user, on any other the credentials alert is raised and session and storage stay as they were; the provider's loading flag is unchanged |
| Patterns.RunEnd | components/ScanPrescription.tsx:190 | a greedy `+`/`*` consumes a run of the class that cannot be extended |
| Patterns.DigitsSlice | components/ScanPrescription.tsx:205 | a non-empty digit run, cut out, is a non-empty decimal string |
| Patterns.RunEndUnique | components/ScanPrescription.tsx:190 | a run that cannot be extended is the greedy one |
| Patterns.FoldStr | components/ScanPrescription.tsx:190 | case folding under the `i` flag keeps the length and folds every character |
| Patterns.NotPrefix | components/ScanPrescription.tsx:190 | words differing at a shared position are not prefixes of each other |
| Patterns.AllKeywords | components/ScanPrescription.tsx:190-192 | in every alternation of the patterns, no alternative is a prefix of another or starts with a digit or space |
| Patterns.UnitsAreKeywords | components/ScanPrescription.tsx:190 | the same, for `mg\|g\|ml\|µg\|ui` |
| Patterns.TimesAreKeywords | components/ScanPrescription.tsx:191 | the same, for `fois\|x` |
| Patterns.PerAreKeywords | components/ScanPrescription.tsx:191 | the same, for `par\|/` |
| Patterns.PeriodsAreKeywords | components/ScanPrescription.tsx:192 | the same, for `jour\|semaine\|mois` |
| Patterns.AltAt | components/ScanPrescription.tsx:190 | an alternation that succeeds consumes one of its words, ignoring case |
| Patterns.FoldedPrefixes | components/ScanPrescription.tsx:190 | two folded slices from one position are prefix-related |
| Patterns.SameKeyword | components/ScanPrescription.tsx:190 | within one alternation, only a word and itself are prefix-related |
| Patterns.KeywordsTail | components/ScanPrescription.tsx:190 | dropping the first alternative keeps the alternation well formed |
| Patterns.AltAtExact | components/ScanPrescription.tsx:190 | any word of the alternation present at a position is the one matched, so alternative order never matters |
| Patterns.KeywordStart | components/ScanPrescription.tsx:190 | a matched word is non-empty and starts with neither a digit nor whitespace |
| Patterns.Leftmost | components/ScanPrescription.tsx:195 | `match` reports the first start position at which the pattern matches, and none earlier matches |
| Patterns.DoseAt | components/ScanPrescription.tsx:200 | a dosage match found at a position has the shape of the dosage pattern |
| Patterns.DoseAtComplete | components/ScanPrescription.tsx:200 | any dosage-shaped slice starting at a position is the one found there: its split is forced |
| Patterns.FindDose | components/ScanPrescription.tsx:200 | the inner dosage pattern reports only dosage-shaped slices |
| Patterns.FindDoseIsLeftmost | components/ScanPrescription.tsx:200 | whenever a dosage-shaped slice exists, one is reported, starting no later |
| Patterns.MedAt | components/ScanPrescription.tsx:190 | a medication match found at a position has the shape of the medication pattern |
| Patterns.MedAtGreedy | components/ScanPrescription.tsx:190 | every medication-shaped slice at a position has a name no longer than the greedy one found there, and the same dosage group |
| Patterns.FindMed | components/ScanPrescription.tsx:195 | the medication pattern reports only medication-shaped slices |
| Patterns.FindMedIsChoice | components/ScanPrescription.tsx:190-195 | the reported match is the leftmost, longest-name one, and there is none exactly when no medication-shaped slice exists |
| Patterns.MedChoiceUnique | components/ScanPrescription.tsx:190 | the leftmost, longest-name match is unique |
| Patterns.InnerDoseAgrees | components/ScanPrescription.tsx:199-202 | the inner dosage pattern always matches group 2 of a medication match, capturing the same digits and unit |
| Patterns.InnerFindsShifted | components/ScanPrescription.tsx:200 | the inner pattern on the text of a dosage match finds that match, from its start |
| Patterns.ShiftedSlices | components/ScanPrescription.tsx:199-205 | the groups read in the cut-out text are the groups in the line |
| Patterns.DoseShift | components/ScanPrescription.tsx:199-200 | a dosage match cut out of its line is a dosage match of the cut-out text |
| Patterns.FindDoseFromStart | components/ScanPrescription.tsx:200 | a dosage match at the very start of a text is the reported one |
| Patterns.FreqAt | components/ScanPrescription.tsx:191 | a frequency match found at a position has the shape of the frequency pattern |
| Patterns.FreqAtComplete | components/ScanPrescription.tsx:191 | any frequency-shaped slice at a position is the one found there |
| Patterns.FindFreq | components/ScanPrescription.tsx:210 | the frequency pattern reports only frequency-shaped slices |
| Patterns.FindFreqLeftmost | components/ScanPrescription.tsx:210 | whenever a frequency-shaped slice exists, one is reported, starting no later |
| Patterns.FindFreqIsChoice | components/ScanPrescription.tsx:191-210 | the reported frequency match is the leftmost one, and there is none exactly when no frequency-shaped slice exists |
| Patterns.FreqChoiceUnique | components/ScanPrescription.tsx:191 | the leftmost frequency match is unique |
| Patterns.FreqSameStart | components/ScanPrescription.tsx:191 | a frequency match is determined by its start |
| Patterns.DurAt | components/ScanPrescription.tsx:192 | a duration match found at a position has the shape of the duration pattern |
| Patterns.DurAtComplete | components/ScanPrescription.tsx:192 | any duration-shaped slice at a position is the one found there |
| Patterns.FindDur | components/ScanPrescription.tsx:216 | the duration pattern reports only duration-shaped slices |
| Patterns.FindDurLeftmost | components/ScanPrescription.tsx:216 | whenever a duration-shaped slice exists, one is reported, starting no later |
| Patterns.FindDurIsChoice | components/ScanPrescription.tsx:192-216 | the reported duration match is the leftmost one, and there is none exactly when no duration-shaped slice exists |
| Patterns.DurChoiceUnique | components/ScanPrescription.tsx:192 | the leftmost duration match is unique |
| Patterns.DurSameStart | components/ScanPrescription.tsx:192 | a duration match is determined by its start |
| Prescription.SplitLines | components/ScanPrescription.tsx:186 | `split('\n')` yields at least one line, none containing a newline |
| Prescription.LineCharsInText | components/ScanPrescription.tsx:186 | every character of a line comes from the text |
| Prescription.JoinSplit | components/ScanPrescription.tsx:186 | joining the lines with newlines gives the text back |
| Prescription.SplitJoin | components/ScanPrescription.tsx:186 | newline-free lines, joined and split, come back unchanged |
| Prescription.SplitNoNewline | components/ScanPrescription.tsx:186 | a newline-free prefix becomes the front of the first line |
| Prescription.Filter | components/ScanPrescription.tsx:186 | `filter` keeps only accepted elements of the input and never grows it |
| Prescription.NonBlank | components/ScanPrescription.tsx:186 | the kept lines are lines of the input whose trim is non-empty |
| Prescription.ParseLineFollowsPatterns | components/ScanPrescription.tsx:194-219 | a line yields an entry exactly when the medication pattern matches it; name, dosage and unit come from the engine's chosen match; frequency and duration are present exactly when their patterns match, and come from their leftmost matches |
| Prescription.ParseLineMedication | components/ScanPrescription.tsx:195-207 | whether a line yields an entry, and its name, dosage and unit, follow the chosen medication match |
| Prescription.FrequencyFollowsPattern | components/ScanPrescription.tsx:210-213 | the frequency is present exactly when its pattern matches, built from the leftmost match's digits |
| Prescription.DurationFollowsPattern | components/ScanPrescription.tsx:216-219 | the duration is present exactly when its pattern matches, and is the leftmost matched phrase |
| Prescription.LowerUnit | components/ScanPrescription.tsx:206 | an accepted unit, lower-cased, is one of `mg`, `g`, `ml`, `µg`, `ui` |
| Prescription.FrequencyShape | components/ScanPrescription.tsx:212 | a frequency reads `<digits> fois par jour` with at least one digit |
| Prescription.DurationShape | components/ScanPrescription.tsx:218 | a duration ends with `jour`, `semaine` or `mois`, in any ASCII case |
| Prescription.DosageShape | components/ScanPrescription.tsx:199-206 | every entry has a non-empty decimal dosage and one of the five units in lower case |
| Prescription.EntryShape | components/ScanPrescription.tsx:203-219 | the shape of dosage, unit, frequency and duration of an entry together |
| Prescription.NoDigitNoEntry | components/ScanPrescription.tsx:190 | a line without a digit yields nothing |
| Prescription.MedMatchNeedsDigit | components/ScanPrescription.tsx:190 | every medication match has a digit where its dosage starts |
| Prescription.CollectInOrder | components/ScanPrescription.tsx:194-224 | the values a `forEach` pushes come one per hit position, in increasing position order, and no hit is missed |
| Prescription.HitsLength | components/ScanPrescription.tsx:221 | as many values as hit positions, and no more than elements |
| Prescription.HitsBelow | components/ScanPrescription.tsx:194 | every hit position is a position of the input |
| Prescription.HitsValues | components/ScanPrescription.tsx:194-221 | value `k` is what the callback yields at hit position `k` |
| Prescription.HitsIncreasing | components/ScanPrescription.tsx:194 | hit positions strictly increase |
| Prescription.HitsComplete | components/ScanPrescription.tsx:194-221 | every position where the callback yields a value is a hit |
| Prescription.CollectCons | components/ScanPrescription.tsx:194-221 | collecting read from the front: the first element's value, if any, comes first |
| Prescription.CollectSnoc | components/ScanPrescription.tsx:221 | one more element adds at most its own value, at the end |
| Prescription.CollectNone | components/ScanPrescription.tsx:194-224 | no element yielding a value means nothing collected |
| Prescription.ParseAllInLineOrder | components/ScanPrescription.tsx:185-227 | one entry per line that yields one, in line order, none missed |
| Prescription.BlankLineYieldsNothing | components/ScanPrescription.tsx:186 | a line whose trim is empty yields no entry |
| Prescription.BlankLinesIrrelevant | components/ScanPrescription.tsx:186 | dropping blank lines never changes the result |
| Prescription.CollectSkipsFiltered | components/ScanPrescription.tsx:186-194 | filtering out elements that yield nothing leaves the collected values unchanged |
| Prescription.ProseYieldsNothing | components/ScanPrescription.tsx:185-227 | text with no digit yields no entry |
| Prescription.ProseLine | components/ScanPrescription.tsx:186-195 | each line of digit-free text yields nothing |
| Prescription.ScanLine | components/ScanPrescription.tsx:194-223 | the per-line callback builds exactly the entry `ParseLine` describes |
| Prescription.ParseMedications | components/ScanPrescription.tsx:185-227 | `parseMedications` returns exactly `ParseText` of its input, whose properties are the lemmas above |
| Prescription.ParseAllStep | components/ScanPrescription.tsx:221 | one more line appends its entry, if any, at the end |
| OcrSample.SampleTextEntries | components/ScanPrescription.tsx:164-173 | the simulated OCR text yields exactly three entries, in line order: `Paracétamol` 500 mg, 3 fois par jour, pendant 5 jour; `Ibuprofène` 200 mg with no frequency, pendant 3 jour; `Amoxicilline` 1 g, 2 fois par jour, pendant 7 jour |
| OcrSample.SampleLines | components/ScanPrescription.tsx:169-172 | splitting the simulated text at line feeds gives back its header and three prescription lines |
| OcrSample.HeaderYieldsNothing | components/ScanPrescription.tsx:169 | the header `ORDONNANCE MÉDICALE` has no digit and yields no entry |
| OcrSample.Line1Entry | components/ScanPrescription.tsx:170 | the first prescription line yields its entry, the duration losing the plural `s` |
| OcrSample.Line2Entry | components/ScanPrescription.tsx:171 | the second line yields its entry with no frequency, since `matin et soir` matches no frequency pattern |
| OcrSample.Line3Entry | components/ScanPrescription.tsx:172 | the third line yields its entry, the unit `g` |
| OcrSample.ParseLineFrom | components/ScanPrescription.tsx:195-223 | once the medication match of a line is known, the entry is its trimmed capitalised name, dosage digits, lower-cased unit, and the frequency and duration found in the line |
| OcrSample.FindFreqAfter | components/ScanPrescription.tsx:191 | a frequency-shaped slice is the one reported when no match starts at any earlier digit |
| OcrSample.FindDurAfter | components/ScanPrescription.tsx:192 | a duration-shaped slice is the one reported when no match starts at any earlier `p` |

## Left out

- Whitespace (`\s`, `trim`) is the ASCII whitespace set plus U+00A0. The other Unicode space characters, and U+2028/U+2029 as line terminators, are not modelled.
- Case folding under the `i` flag and by `toLowerCase`/`toUpperCase` is modelled on ASCII and Latin-1 only. Under the `i` flag JavaScript also lets `Ÿ` (U+0178) into the name class and Greek mu into `µg`; the model does not.
- Numbers are unbounded integers and identifiers are rendered from natural numbers.
- The numeric fields of medications and reminders (`dosage`, `currentStock`, `initialStock`, `reorderThreshold`) are only copied, never computed on. They are modelled as `int`, so a fractional value is not representable, for example a dosage of 2.5, which the edit screen's `Number(...)` admits (app/(tabs)/EditMedication.tsx:122, 201-204). Neither is `NaN`.
- A spread of a property present with the value `undefined` writes `undefined`; the model's patches cannot carry an explicit `undefined`.
- JSON serialisation is not modelled: a stored value is the value that was serialised.
  - A key holding some other kind of value reads as empty for a table and as a parse failure for `userData`, which signs out like the `catch` path.
  - A table stored as an array of a different shape is not modelled.
- The `catch` branches (storage or network errors) and `console` output are not modelled.
- Timers and asynchrony are not modelled: each call is atomic, so interleaved calls and the intermediate `isLoading` value during a call are not observable. `SignIn` and `HandleRegister` state that loading ends.
- The axios branch of `app/services/api.ts` (used when mock data is off) is not modelled: it forwards to a server this model cannot see.
- `Math.random`, `Date.now` and `new Date()` become parameters. The shape of the random tokens and identifiers is not constrained.
- Models.MedicationFromDraft, Models.ReminderFromDraft, MockApi.MockBackend.Register, AppAuth.AuthProvider.Register, MockApi.MockBackend.AddMedication, StorageApi.RegisterAnswer, StorageApi.StorageBackend.AddMedication, StorageApi.StorageBackend.AddReminder: `createdAt` and `updatedAt` come from two separate `new Date()` calls, which may differ by a millisecond; the model stamps both with one time.
- Aliasing of the back-ends' tables is not modelled. `getMedications` and `getReminders` return the live module arrays (app/services/api.ts:184-188, 265-270; services/api.ts:97), which later calls change in place (app/services/api.ts:231, 252; services/api.ts:121, 140), and `_meds` shares the fixture array (services/api.ts:239). In the model each call returns a value copy, so a caller's earlier result does not see later changes.
- Reminder `status` and the other reminder fields are carried as opaque values; nothing in the core changes them.
- Rendering, navigation (`router.push`) and the alert buttons are not modelled.
- Screens.RegisterForm.HandleRegister: its failure branch cannot happen with the provider it uses, because that provider's registration always succeeds. That alert logic is stated once, in `RegisterFeedback`.
- The camera, OCR call, base64 conversion and confirmation UI of the scanning screen are not part of this model.

## Findings

| source | as written | input that shows it | evidently intended | confidence | as-written member | corrected member |
|---|---|---|---|---|---|---|
| app/contexts/AuthContext.tsx:80 | `login` stores `JSON.stringify(user)`, the provider's state before the call, under `userData` | fresh install; sign in with `test@example.com` / `password`; restart the app (restore): signed in with user `null` | store the returned user (`userData`), as `src/contexts/AuthContext.tsx:81` does | not executed | AppAuth.StaleLoginScenario | AppAuth.FixedLoginScenario |
