/**
 * The field checks of the registration and sign-in screens. Each check
 * yields whether the field is valid and the error text the screen then
 * shows, `""` when valid.
 */
module Forms {
  import opened Wrappers
  import opened Text
  import opened Tables

  datatype FieldCheck = FieldCheck(valid: bool, error: string)

  const Accepted := FieldCheck(true, "")

  // The messages of the registration screen.
  const FirstNameRequired := "Le prénom est requis"
  const LastNameRequired := "Le nom est requis"
  const EmailRequired := "L'email est requis"
  const EmailMalformed := "Format d'email invalide"
  const PasswordRequired := "Le mot de passe est requis"
  const PasswordTooShort := "Le mot de passe doit contenir au moins 6 caractères"
  const ConfirmRequired := "Veuillez confirmer votre mot de passe"
  const ConfirmMismatch := "Les mots de passe ne correspondent pas"
  const PhoneMalformed := "Format de numéro de téléphone invalide"

  // The sign-in screen writes its two email messages with a literal `&apos;`.
  const LoginEmailRequired := "L&apos;email est requis"
  const LoginEmailMalformed := "Format d&apos;email invalide"

  const MinPasswordLength := 6
  const PhoneDigits := 10

  /** `value.trim()` is falsy: a name is refused exactly when it holds only whitespace. */
  function CheckName(value: string, required: string): (c: FieldCheck)
    ensures c.valid <==> exists i :: 0 <= i < |value| && !IsSpace(value[i])
    ensures c == if c.valid then Accepted else FieldCheck(false, required)
  {
    if Trim(value) == [] then FieldCheck(false, required) else Accepted
  }

  // ------------------------------------------------------------ email

  predicate NoSpaceOrAt(s: string) {
    forall j :: 0 <= j < |s| ==> !IsSpace(s[j]) && s[j] != '@'
  }

  /**
   * The pattern `^[^\s@]+@[^\s@]+\.[^\s@]+$` matches the whole of `e`: a
   * non-empty local part, an `@`, a non-empty part, a `.` and a non-empty
   * part, none of the three parts holding whitespace or `@`.
   */
  ghost predicate EmailPatternMatches(e: string) {
    exists i, k :: PatternSplit(e, i, k)
  }

  /** The `@` at `i` and the `.` at `k` split `e` into the three parts of the pattern. */
  ghost predicate PatternSplit(e: string, i: int, k: int) {
    && 0 < i && i + 1 < k && k + 1 < |e|
    && e[i] == '@' && e[k] == '.'
    && NoSpaceOrAt(e[..i]) && NoSpaceOrAt(e[i + 1..k]) && NoSpaceOrAt(e[k + 1..])
  }

  function IsAtSign(c: char): bool {
    c == '@'
  }

  /**
   * The same test read off the first `@`: it is not the first character,
   * nothing around it is whitespace or another `@`, and what follows it has
   * a `.` that is neither its first nor its last character.
   */
  predicate EmailShape(e: string) {
    match FindIndex(e, IsAtSign)
    case None => false
    case Some(i) =>
      0 < i && NoSpaceOrAt(e[..i]) && DomainShape(e[i + 1..])
  }

  /** What follows the `@`: clean, and holding a `.` that is neither first nor last. */
  predicate DomainShape(d: string) {
    |d| >= 3 && NoSpaceOrAt(d) && '.' in d[1..|d| - 1]
  }

  lemma EmailShapeMatchesPattern(e: string)
    ensures EmailShape(e) <==> EmailPatternMatches(e)
  {
    if EmailShape(e) {
      ShapeGivesPattern(e);
    }
    if EmailPatternMatches(e) {
      PatternGivesShape(e);
    }
  }

  lemma ShapeGivesPattern(e: string)
    requires EmailShape(e)
    ensures EmailPatternMatches(e)
  {
    var i := FindIndex(e, IsAtSign).value;
    var domain := e[i + 1..];
    var inner := domain[1..|domain| - 1];
    var d :| 0 <= d < |inner| && inner[d] == '.';
    var k := i + 2 + d;
    assert e[k] == inner[d];
    assert e[i + 1..k] == domain[..d + 1];
    assert e[k + 1..] == domain[d + 2..];
    assert PatternSplit(e, i, k);
  }

  lemma PatternGivesShape(e: string)
    requires EmailPatternMatches(e)
    ensures EmailShape(e)
  {
    var i, k :| PatternSplit(e, i, k);
    FirstAtSign(e, i);
    var domain := e[i + 1..];
    assert domain[..k - i - 1] == e[i + 1..k];
    assert domain[k - i..] == e[k + 1..];
    DotDomain(domain, k - i - 1);
  }

  /** An `@` with no whitespace or `@` before it is the first one. */
  lemma FirstAtSign(e: string, i: nat)
    requires i < |e| && e[i] == '@' && NoSpaceOrAt(e[..i])
    ensures FindIndex(e, IsAtSign) == Some(i)
  {
    forall j | 0 <= j < i ensures !IsAtSign(e[j]) {
      assert e[j] == e[..i][j];
    }
    FindIndexUnique(e, IsAtSign, i);
  }

  /** Two non-empty clean parts around a `.` make a domain. */
  lemma DotDomain(d: string, k: nat)
    requires 0 < k && k + 1 < |d| && d[k] == '.' && NoSpaceOrAt(d[..k]) && NoSpaceOrAt(d[k + 1..])
    ensures DomainShape(d)
  {
    assert d[1..|d| - 1][k - 1] == '.';
    forall j | 0 <= j < |d| ensures !IsSpace(d[j]) && d[j] != '@' {
      if j < k {
        assert d[j] == d[..k][j];
      } else if k < j {
        assert d[j] == d[k + 1..][j - k - 1];
      }
    }
  }

  /** An accepted email has exactly one `@`. */
  lemma EmailHasOneAt(e: string)
    requires EmailPatternMatches(e)
    ensures exists i :: 0 < i < |e| && e[i] == '@' && forall j :: 0 <= j < |e| && e[j] == '@' ==> j == i
  {
    var i, k :| PatternSplit(e, i, k);
    forall j | 0 <= j < |e| && j != i ensures e[j] != '@' {
      if j < i {
        assert e[j] == e[..i][j];
      } else if i < j < k {
        assert e[j] == e[i + 1..k][j - i - 1];
      } else if k < j {
        assert e[j] == e[k + 1..][j - k - 1];
      }
    }
  }

  /** `!email` first, then the pattern. */
  function CheckEmail(email: string, required: string, malformed: string): (c: FieldCheck)
    ensures email == "" ==> c == FieldCheck(false, required)
    ensures email != "" ==> (c.valid <==> EmailPatternMatches(email))
    ensures email != "" ==> c == if c.valid then Accepted else FieldCheck(false, malformed)
  {
    EmailShapeMatchesPattern(email);
    if email == "" then FieldCheck(false, required)
    else if !EmailShape(email) then FieldCheck(false, malformed)
    else Accepted
  }

  // ------------------------------------------------------------ password

  /**
   * `!password` first, then `password.length < 6`, where the length counts
   * UTF-16 code units.
   */
  function CheckPassword(password: string): (c: FieldCheck)
    ensures password == "" ==> c == FieldCheck(false, PasswordRequired)
    ensures password != "" ==> (c.valid <==> Utf16Length(password) >= MinPasswordLength)
    ensures password != "" ==> c == if c.valid then Accepted else FieldCheck(false, PasswordTooShort)
  {
    if password == "" then FieldCheck(false, PasswordRequired)
    else if Utf16Length(password) < MinPasswordLength then FieldCheck(false, PasswordTooShort)
    else Accepted
  }

  /** Six characters always suffice, and for text within the Basic Multilingual Plane six are needed. */
  lemma PasswordLengthInCharacters(password: string)
    ensures |password| >= MinPasswordLength ==> CheckPassword(password).valid
    ensures (forall i :: 0 <= i < |password| ==> password[i] as int <= 0xFFFF) ==>
      (CheckPassword(password).valid <==> |password| >= MinPasswordLength)
  {
  }

  /** `!confirmPassword` first, then equality with the password. */
  function CheckConfirm(confirm: string, password: string): (c: FieldCheck)
    ensures c.valid <==> password != "" && confirm == password
    ensures confirm == "" ==> c == FieldCheck(false, ConfirmRequired)
    ensures confirm != "" && confirm != password ==> c == FieldCheck(false, ConfirmMismatch)
    ensures c.valid ==> c == Accepted
  {
    if confirm == "" then FieldCheck(false, ConfirmRequired)
    else if confirm != password then FieldCheck(false, ConfirmMismatch)
    else Accepted
  }

  // ------------------------------------------------------------ phone

  /** `/^\d{10}$/`: exactly ten ASCII digits. */
  predicate TenDigits(s: string) {
    |s| == PhoneDigits && AllDigits(s)
  }

  /**
   * The phone is optional: an empty one is accepted; otherwise it must be
   * ten digits once every whitespace character is removed.
   */
  function CheckPhone(phone: string): (c: FieldCheck)
    ensures phone == "" ==> c == Accepted
    ensures phone != "" ==> (c.valid <==> TenDigits(RemoveSpaces(phone)))
    ensures c == if c.valid then Accepted else FieldCheck(false, PhoneMalformed)
  {
    if phone != "" && !TenDigits(RemoveSpaces(phone)) then FieldCheck(false, PhoneMalformed) else Accepted
  }

  /** A phone made only of whitespace is not empty, and it is refused. */
  lemma BlankPhoneRefused(phone: string)
    requires phone != ""
    requires forall i :: 0 <= i < |phone| ==> IsSpace(phone[i])
    ensures !CheckPhone(phone).valid
  {
  }

  /** Spacing never matters to a phone with some non-space character: only the characters left count. */
  lemma PhoneSpacingIrrelevant(phone: string)
    requires exists i :: 0 <= i < |phone| && !IsSpace(phone[i])
    ensures CheckPhone(phone) == CheckPhone(RemoveSpaces(phone))
  {
    var r := RemoveSpaces(phone);
    assert r != [];
    assert RemoveSpaces(r) == r;
  }
}
