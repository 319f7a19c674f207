/** The field validators of src/utils/validators.js. Each validator returns
    `None` (JavaScript `null`) when it accepts and `Some(key)` with an error
    key when it rejects. An absent argument is passed as "" (every validator
    treats `undefined`, `null` and "" alike: `if (!x) return null`). */
module Validators {
  import opened Options
  import opened Text

  const FullnameError := "fullnameError"
  const PasswordError := "passwordError"
  const PhoneNumberError := "phoneNumberError"
  const UsernameError := "usernameError"
  const TgUsernameError := "tgUsernameError"
  const DateFormatError := "Invalid date format. Use YYYY-MM-DD"
  const DateRangeError := "Invalid date or date is in the future"

  // ---------------------------------------------------------------- full name

  function ValidateFullname(fullname: string): (r: Option<string>)
    ensures fullname == "" ==> r == None
    ensures r.Some? ==> r.value == FullnameError
  {
    if fullname == "" then None
    else if Utf16Length(Trim(fullname)) < 2 then Some(FullnameError)
    else None
  }

  /** Two non-whitespace characters at different positions. */
  ghost predicate TwoVisible(s: string) {
    exists i, j :: 0 <= i < j < |s| && !IsWhitespace(s[i]) && !IsWhitespace(s[j])
  }

  /** A non-whitespace character that takes two UTF-16 code units. */
  ghost predicate WideVisible(s: string) {
    exists i :: 0 <= i < |s| && !IsWhitespace(s[i]) && s[i] as int >= 0x1_0000
  }

  /** Two visible characters, or one that takes two code units, make the
      trimmed name at least two code units long. */
  lemma {:induction false} VisibleIsLongEnough(fullname: string)
    requires TwoVisible(fullname) || WideVisible(fullname)
    ensures Utf16Length(Trim(fullname)) >= 2
  {
    if TwoVisible(fullname) {
      var i, j :| 0 <= i < j < |fullname| && !IsWhitespace(fullname[i]) && !IsWhitespace(fullname[j]);
      var a, b := TrimSpan(fullname, i);
      var a', b' := TrimSpan(fullname, j);
    } else {
      var i :| 0 <= i < |fullname| && !IsWhitespace(fullname[i]) && fullname[i] as int >= 0x1_0000;
      var a, b := TrimSpan(fullname, i);
      assert Trim(fullname)[i - a] == fullname[i];
      Utf16Wide(Trim(fullname), i - a);
    }
  }

  /** A trimmed name two code units long has two visible characters or one
      that takes two code units. */
  lemma {:induction false} LongEnoughIsVisible(fullname: string)
    requires Utf16Length(Trim(fullname)) >= 2
    ensures TwoVisible(fullname) || WideVisible(fullname)
  {
    var t := Trim(fullname);
    var k := TrimSlice(fullname);
    TrimEnds(fullname);
    assert t[0] == fullname[k];
    if |t| >= 2 {
      assert t[|t| - 1] == fullname[k + |t| - 1];
      assert !IsWhitespace(fullname[k]) && !IsWhitespace(fullname[k + |t| - 1]);
    } else {
      assert t[1..] == [];
      assert t[0] as int >= 0x1_0000;
      assert !IsWhitespace(fullname[k]) && fullname[k] as int >= 0x1_0000;
    }
  }

  /** A non-empty name is rejected exactly when, once trimmed, it is shorter
      than two UTF-16 code units: it has no two visible characters and no
      visible character outside the Basic Multilingual Plane. */
  lemma FullnameRule(fullname: string)
    ensures ValidateFullname(fullname).None? <==>
            fullname == "" || TwoVisible(fullname) || WideVisible(fullname)
  {
    if TwoVisible(fullname) || WideVisible(fullname) {
      VisibleIsLongEnough(fullname);
    }
    if Utf16Length(Trim(fullname)) >= 2 {
      LongEnoughIsVisible(fullname);
    }
  }

  // ---------------------------------------------------------------- password

  /** `[A-Za-z\d@$!%*?&]` */
  predicate IsPasswordChar(c: char) {
    IsLower(c) || IsUpper(c) || IsDigit(c) ||
    c == '@' || c == '$' || c == '!' || c == '%' || c == '*' || c == '?' || c == '&'
  }

  /** `/^(?=.*[a-z])(?=.*[A-Z])(?=.*\d)[A-Za-z\d@$!%*?&]{8,}$/` */
  function ValidatePassword(password: string): (r: Option<string>)
    ensures password == "" ==> r == None
    ensures r.Some? ==> r.value == PasswordError
  {
    if password == "" then None
    else if && |password| >= 8 && All(password, IsPasswordChar)
            && Any(password, IsLower) && Any(password, IsUpper) && Any(password, IsDigit)
    then None
    else Some(PasswordError)
  }

  /** A non-empty password is accepted exactly when it has at least eight
      characters, all from the class, with a lower-case letter, an upper-case
      letter and a digit among them. */
  lemma PasswordRule(password: string)
    requires password != ""
    ensures ValidatePassword(password).None? <==>
              && |password| >= 8
              && (forall i :: 0 <= i < |password| ==> IsPasswordChar(password[i]))
              && (exists i :: 0 <= i < |password| && IsLower(password[i]))
              && (exists i :: 0 <= i < |password| && IsUpper(password[i]))
              && (exists i :: 0 <= i < |password| && IsDigit(password[i]))
  {
  }

  // ---------------------------------------------------------------- phone

  /** The digit strings the phone rule accepts, described by their shapes:
      "998" and nine more digits, "90" and ten more digits, a nine-digit local
      number that does not begin with "998" or "90", or a ten-digit local
      number beginning with "5". */
  ghost predicate AcceptedPhoneDigits(d: string) {
    || (|d| == 12 && "998" <= d)
    || (|d| == 12 && "90" <= d)
    || (|d| == 9 && !("998" <= d) && !("90" <= d))
    || (|d| == 10 && d[0] == '5')
  }

  function ValidatePhoneNumber(phone: string): (r: Option<string>)
    ensures phone == "" ==> r == None
    ensures r.Some? ==> r.value == PhoneNumberError
  {
    if phone == "" then None
    else
      var digits := Digits(phone);
      if "998" <= digits then
        (if |digits| != 12 then Some(PhoneNumberError) else None)
      else if "90" <= digits then
        (if |digits| != 12 then Some(PhoneNumberError) else None)
      else if |digits| == 9 then None
      else if |digits| == 10 && "5" <= digits then None
      else Some(PhoneNumberError)
  }

  lemma PhoneRule(phone: string)
    requires phone != ""
    ensures ValidatePhoneNumber(phone).None? <==> AcceptedPhoneDigits(Digits(phone))
  {
  }

  /** The "90" country-code test runs before the local-length tests, so a
      nine-digit local number beginning with "90" is refused. */
  lemma LocalNumberStartingNinetyRejected(phone: string)
    requires |Digits(phone)| == 9 && "90" <= Digits(phone)
    ensures ValidatePhoneNumber(phone) == Some(PhoneNumberError)
  {
  }

  // ---------------------------------------------------------------- usernames

  /** `[a-z0-9]` */
  predicate IsUsernameChar(c: char) { IsLower(c) || IsDigit(c) }

  /** `/^(?!.*\s)[a-z0-9]{4,10}$/` */
  function ValidateUsername(username: string): (r: Option<string>)
    ensures username == "" ==> r == None
    ensures r.Some? ==> r.value == UsernameError
  {
    if username == "" then None
    else if 4 <= |username| <= 10 && All(username, IsUsernameChar) then None
    else Some(UsernameError)
  }

  /** A non-empty username is accepted exactly when it has four to ten
      characters, all lower-case ASCII letters or digits. */
  lemma UsernameRule(username: string)
    requires username != ""
    ensures ValidateUsername(username).None? <==>
              4 <= |username| <= 10 && forall i :: 0 <= i < |username| ==> IsUsernameChar(username[i])
  {
  }

  /** `[a-zA-Z0-9_]` */
  predicate IsTelegramChar(c: char) { IsLower(c) || IsUpper(c) || IsDigit(c) || c == '_' }

  /** `/^(?!.*\s)[a-zA-Z0-9_]{5,32}$/` */
  function ValidateTelegramUsername(tgUsername: string): (r: Option<string>)
    ensures tgUsername == "" ==> r == None
    ensures r.Some? ==> r.value == TgUsernameError
  {
    if tgUsername == "" then None
    else if 5 <= |tgUsername| <= 32 && All(tgUsername, IsTelegramChar) then None
    else Some(TgUsernameError)
  }

  /** A non-empty Telegram username is accepted exactly when it has five to
      thirty-two characters, all ASCII letters, digits or underscores. */
  lemma TelegramUsernameRule(tgUsername: string)
    requires tgUsername != ""
    ensures ValidateTelegramUsername(tgUsername).None? <==>
              5 <= |tgUsername| <= 32 && forall i :: 0 <= i < |tgUsername| ==> IsTelegramChar(tgUsername[i])
  {
  }

  // ---------------------------------------------------------------- birth date

  /** `/^\d{4}-\d{2}-\d{2}$/` */
  ghost predicate DateShaped(s: string) {
    |s| == 10 && forall i :: 0 <= i < 10 ==> if i == 4 || i == 7 then s[i] == '-' else IsDigit(s[i])
  }

  /** `calendarOk` stands for the clock-dependent part of the source: whether
      `new Date(dateString)` is a valid date that is not after the current
      time. */
  function ValidateBirthDate(dateString: string, calendarOk: bool): (r: Option<string>)
    ensures dateString == "" ==> r == None
    ensures dateString != "" && !DateShaped(dateString) ==> r == Some(DateFormatError)
    ensures dateString != "" && DateShaped(dateString) ==>
              r == if calendarOk then None else Some(DateRangeError)
  {
    if dateString == "" then None
    else if !FitsMask(dateString, "####-##-##") then Some(DateFormatError)
    else if !calendarOk then Some(DateRangeError)
    else None
  }

  // ---------------------------------------------------------------- whole form

  /** The argument object of `validateAdminForm`; `phoneNumber` is the older
      name of `phone`. */
  datatype AdminFormFields = AdminFormFields(
    fullname: string,
    username: string,
    password: string,
    tgUsername: string,
    phone: string,
    phoneNumber: string,
    birthDate: string)

  /** The keys an error dictionary can have; `Key` gives the property name
      the dictionary uses for each. */
  datatype Field = Fullname | Username | Password | TgUsername | PhoneNumber | BirthDate

  function Key(k: Field): string {
    match k
    case Fullname => "fullname"
    case Username => "username"
    case Password => "password"
    case TgUsername => "tgUsername"
    case PhoneNumber => "phoneNumber"
    case BirthDate => "birthDate"
  }

  /** The verdict of each field's validator. */
  datatype Verdicts = Verdicts(
    fullname: Option<string>,
    username: Option<string>,
    password: Option<string>,
    tgUsername: Option<string>,
    phoneNumber: Option<string>,
    birthDate: Option<string>)

  function VerdictFor(key: Field, v: Verdicts): Option<string> {
    match key
    case Fullname => v.fullname
    case Username => v.username
    case Password => v.password
    case TgUsername => v.tgUsername
    case PhoneNumber => v.phoneNumber
    case BirthDate => v.birthDate
  }

  /** One entry per failing field, holding that field's error, and none for
      the others. */
  function ErrorDictionary(v: Verdicts): map<Field, string> {
    map k: Field | VerdictFor(k, v).Some? :: VerdictFor(k, v).value
  }

  /** What the validators say about a form; the password is judged only when
      `includePassword` holds, and the phone entry judges `phone || phoneNumber`. */
  function Judge(f: AdminFormFields, includePassword: bool, calendarOk: bool): Verdicts {
    Verdicts(
      ValidateFullname(f.fullname),
      ValidateUsername(f.username),
      if includePassword then ValidatePassword(f.password) else None,
      ValidateTelegramUsername(f.tgUsername),
      ValidatePhoneNumber(Or(f.phone, f.phoneNumber)),
      ValidateBirthDate(f.birthDate, calendarOk))
  }

  /** The error dictionary of a form. */
  function FieldErrors(f: AdminFormFields, includePassword: bool, calendarOk: bool): map<Field, string> {
    ErrorDictionary(Judge(f, includePassword, calendarOk))
  }

  /** `if (e) errors[key] = e;` */
  function WithError(errors: map<Field, string>, key: Field, e: Option<string>): map<Field, string> {
    if e.Some? then errors[key := e.value] else errors
  }

  /** Adding the entries of failing fields one field after another, in the
      order `validateAdminForm` checks them, yields the error dictionary. */
  lemma InFormOrder(v: Verdicts)
    ensures WithError(WithError(WithError(WithError(WithError(WithError(map[],
              Fullname, v.fullname), Username, v.username), Password, v.password),
              TgUsername, v.tgUsername), PhoneNumber, v.phoneNumber), BirthDate, v.birthDate)
            == ErrorDictionary(v)
  {
    var m := WithError(WithError(WithError(WithError(WithError(WithError(map[],
               Fullname, v.fullname), Username, v.username), Password, v.password),
               TgUsername, v.tgUsername), PhoneNumber, v.phoneNumber), BirthDate, v.birthDate);
    forall k: Field
      ensures k in m <==> VerdictFor(k, v).Some?
      ensures k in m ==> m[k] == VerdictFor(k, v).value
    {
      match k
      case Fullname =>
      case Username =>
      case Password =>
      case TgUsername =>
      case PhoneNumber =>
      case BirthDate =>
    }
    assert m.Keys == ErrorDictionary(v).Keys;
  }

  /** `validateAdminForm`: fills the dictionary field by field. */
  method ValidateAdminForm(f: AdminFormFields, includePassword: bool, calendarOk: bool)
    returns (errors: map<Field, string>)
    ensures errors == FieldErrors(f, includePassword, calendarOk)
  {
    errors := map[];

    var fullnameError := ValidateFullname(f.fullname);
    if fullnameError.Some? {
      errors := errors[Fullname := fullnameError.value];
    }

    var usernameError := ValidateUsername(f.username);
    if usernameError.Some? {
      errors := errors[Username := usernameError.value];
    }

    var passwordError := None;
    if includePassword {
      passwordError := ValidatePassword(f.password);
      if passwordError.Some? {
        errors := errors[Password := passwordError.value];
      }
    }

    var tgUsernameError := ValidateTelegramUsername(f.tgUsername);
    if tgUsernameError.Some? {
      errors := errors[TgUsername := tgUsernameError.value];
    }

    var phoneToValidate := Or(f.phone, f.phoneNumber);
    var phoneError := ValidatePhoneNumber(phoneToValidate);
    if phoneError.Some? {
      errors := errors[PhoneNumber := phoneError.value];
    }

    var birthDateError := ValidateBirthDate(f.birthDate, calendarOk);
    if birthDateError.Some? {
      errors := errors[BirthDate := birthDateError.value];
    }

    ghost var v := Verdicts(fullnameError, usernameError, passwordError, tgUsernameError, phoneError, birthDateError);
    assert v == Judge(f, includePassword, calendarOk);
    InFormOrder(v);
  }

  /** `validateAdminInputs`: the add-admin form, password included. */
  method ValidateAdminInputs(f: AdminFormFields, calendarOk: bool) returns (errors: map<Field, string>)
    ensures errors == FieldErrors(f, true, calendarOk)
  {
    errors := ValidateAdminForm(f, true, calendarOk);
  }

  /** `validateAdminEditForm`: the edit form, password never checked. */
  method ValidateAdminEditForm(f: AdminFormFields, calendarOk: bool) returns (errors: map<Field, string>)
    ensures errors == FieldErrors(f, false, calendarOk)
  {
    errors := ValidateAdminForm(f, false, calendarOk);
  }

  /** A field whose verdict is a pass has no entry; the others keep theirs. */
  lemma DropVerdict(v: Verdicts)
    ensures ErrorDictionary(v.(password := None)) == ErrorDictionary(v) - {Password}
  {
  }

  /** The two wrappers differ only in the password entry. */
  lemma PasswordOnlyWhenIncluded(f: AdminFormFields, calendarOk: bool)
    ensures Password !in FieldErrors(f, false, calendarOk)
    ensures Password in FieldErrors(f, true, calendarOk) <==> ValidatePassword(f.password).Some?
    ensures FieldErrors(f, true, calendarOk) - {Password} == FieldErrors(f, false, calendarOk)
  {
    var v := Judge(f, true, calendarOk);
    assert Judge(f, false, calendarOk) == v.(password := None);
    DropVerdict(v);
  }

  /** `phone || phoneNumber`: the phone entry judges `phone`, or `phoneNumber`
      when `phone` is empty, and ignores `phoneNumber` otherwise. */
  lemma PhoneFallsBackToPhoneNumber(f: AdminFormFields, includePassword: bool, calendarOk: bool, other: string)
    ensures PhoneNumber in FieldErrors(f, includePassword, calendarOk) <==>
            ValidatePhoneNumber(if f.phone != "" then f.phone else f.phoneNumber).Some?
    ensures f.phone != "" ==>
              FieldErrors(f.(phoneNumber := other), includePassword, calendarOk) == FieldErrors(f, includePassword, calendarOk)
  {
  }

  /** Every field is optional: a form left blank has no errors. */
  lemma BlankFormHasNoErrors(includePassword: bool, calendarOk: bool)
    ensures FieldErrors(AdminFormFields("", "", "", "", "", "", ""), includePassword, calendarOk) == map[]
  {
    var v := Judge(AdminFormFields("", "", "", "", "", "", ""), includePassword, calendarOk);
    assert forall k :: VerdictFor(k, v).None?;
  }
}
