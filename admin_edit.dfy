/** The edit form of one admin, src/pages/Admin/index.jsx: how the stored
    phone is split over the country-code selector and the number input, how
    a pasted number is taken apart, and `handleSave`, which reads the form,
    falls back to the stored values, validates, and sends the change only
    when something differs. */
module AdminEdit {
  import opened Options
  import opened Text
  import opened Validators

  const Uzbekistan := "998"
  const Turkey := "90"

  /** `data.getAdmin`; an absent text field is "". */
  datatype Admin = Admin(
    id: string, fullname: string, username: string, phone: string,
    tgUsername: string, birthDate: string, isActive: bool)

  // ---------------------------------------------------------------- phone

  /** The selector's default: the stored phone's country code, "998" when
      it has none. */
  function CountryCodeOf(phone: string): (code: string)
    ensures code == Uzbekistan || code == Turkey
  {
    if Uzbekistan <= phone then Uzbekistan
    else if Turkey <= phone then Turkey
    else Uzbekistan
  }

  /** The number input's default: the stored phone without its country
      code. */
  function LocalPartOf(phone: string): (rest: string)
    ensures |rest| <= |phone| && rest == phone[|phone| - |rest|..]
  {
    if phone == "" then ""
    else if Uzbekistan <= phone then phone[3..]
    else if Turkey <= phone then phone[2..]
    else phone
  }

  /** Putting the two parts back together restores a phone that starts with
      "998" or "90"; any other phone comes back with "998" in front. */
  lemma SplitRecombine(phone: string)
    ensures Uzbekistan <= phone || Turkey <= phone ==> CountryCodeOf(phone) + LocalPartOf(phone) == phone
    ensures !(Uzbekistan <= phone || Turkey <= phone) ==> CountryCodeOf(phone) + LocalPartOf(phone) == Uzbekistan + phone
  {
    if Uzbekistan <= phone {
      assert phone == phone[..3] + phone[3..];
    } else if Turkey <= phone {
      assert phone == phone[..2] + phone[2..];
    }
  }

  /** The birth-date input's default: the stored value up to its first
      "T", which drops the time part of an ISO date-time. */
  function DateInputOf(birthDate: string): (d: string)
    ensures 'T' !in d
    ensures d <= birthDate
    ensures |d| < |birthDate| ==> birthDate[|d|] == 'T'
  {
    if birthDate == "" then ""
    else SplitShape(birthDate, 'T'); Split(birthDate, 'T')[0]
  }

  /** A stored date without a time part is shown as it is. */
  lemma DateInputOfPlainDate(birthDate: string)
    requires 'T' !in birthDate
    ensures DateInputOf(birthDate) == birthDate
  {
    if birthDate != "" {
      SplitPrefix(birthDate, [], 'T');
      assert birthDate + [] == birthDate;
    }
  }

  // ---------------------------------------------------------------- save

  /** The values `handleSave` reads from the form's inputs; an empty or
      missing input is "". */
  datatype FormInputs = FormInputs(
    fullname: string, username: string, countryCode: string,
    phoneNumber: string, tgUsername: string, birthDate: string)

  /** The variables of the `changeAdmin` mutation. */
  datatype ChangeAdminVariables = ChangeAdminVariables(
    id: string, fullname: string, username: string, phone: string,
    tgUsername: string, birthDate: string, isActive: bool)

  /** How a save ends: the "no form data" alert, validation errors, the "no
      changes" alert, or the mutation with its variables. */
  datatype SaveOutcome =
    | NoFormData
    | Invalid(errors: map<Field, string>)
    | NoChanges
    | Send(variables: ChangeAdminVariables)

  /** The values a save works with: each input, or the stored value when the
      input is empty, the phone put together from the two phone inputs. The
      birth date is the input or the stored date, and a non-empty date not
      shaped YYYY-MM-DD is replaced by `toIsoDate` (the date part of
      `new Date(birthDate).toISOString()`, `None` for an invalid date). */
  function Collect(admin: Admin, inputs: FormInputs, isActive: bool, toIsoDate: string -> Option<string>): ChangeAdminVariables {
    var countryCode := Or(inputs.countryCode, CountryCodeOf(admin.phone));
    var phoneNumber := Or(inputs.phoneNumber, LocalPartOf(admin.phone));
    var birthDate := Or(inputs.birthDate, admin.birthDate);
    var birthDate' :=
      if birthDate != "" && !FitsMask(birthDate, "####-##-##") && toIsoDate(birthDate).Some?
      then toIsoDate(birthDate).value else birthDate;
    ChangeAdminVariables(
      admin.id,
      Or(inputs.fullname, admin.fullname),
      Or(inputs.username, admin.username),
      countryCode + phoneNumber,
      Or(inputs.tgUsername, admin.tgUsername),
      birthDate',
      isActive)
  }

  /** What `validateAdminEditForm` is given: no password and no
      `phoneNumber`. */
  function EditFields(v: ChangeAdminVariables): AdminFormFields {
    AdminFormFields(v.fullname, v.username, "", v.tgUsername, v.phone, "", v.birthDate)
  }

  /** `hasChanges`: some sent value differs from the stored one. */
  predicate HasChanges(admin: Admin, v: ChangeAdminVariables) {
    || v.fullname != admin.fullname
    || v.username != admin.username
    || v.phone != admin.phone
    || v.tgUsername != admin.tgUsername
    || v.birthDate != admin.birthDate
    || v.isActive != admin.isActive
  }

  /** `handleSave` as a function of the stored admin, the form and the
      clock-dependent inputs, the guards in the source's order. */
  function Save(admin: Admin, inputs: FormInputs, isActive: bool,
                toIsoDate: string -> Option<string>, calendarOk: bool): SaveOutcome {
    var v := Collect(admin, inputs, isActive, toIsoDate);
    if v.fullname == "" && v.username == "" && v.phone == "" && v.tgUsername == "" then NoFormData
    else Decide(admin, v, calendarOk)
  }

  /** The guards after the values are collected: validation, then change
      detection. */
  function Decide(admin: Admin, v: ChangeAdminVariables, calendarOk: bool): SaveOutcome {
    var errors := FieldErrors(EditFields(v), false, calendarOk);
    if errors != map[] then Invalid(errors)
    else if !HasChanges(admin, v) then NoChanges
    else Send(v)
  }

  /** The state of the page the save and the paste handler touch: the
      values of the form's inputs, the controlled `isActive` switch, and the
      validation errors shown under the fields. */
  class AdminPage {
    var inputs: FormInputs
    var isActive: bool
    var isEditing: bool
    var validationErrors: map<Field, string>

    /** The form as first rendered for a loaded admin: each input holds its
        default value. */
    constructor (admin: Admin)
      ensures inputs == Untouched(admin)
      ensures isActive == admin.isActive && !isEditing && validationErrors == map[]
    {
      inputs := FormInputs(admin.fullname, admin.username, CountryCodeOf(admin.phone),
                           LocalPartOf(admin.phone), admin.tgUsername, DateInputOf(admin.birthDate));
      isActive := admin.isActive;
      isEditing := false;
      validationErrors := map[];
    }

    /** `handleSave`; it returns where the save ended. */
    method HandleSave(admin: Admin, toIsoDate: string -> Option<string>, calendarOk: bool)
      returns (outcome: SaveOutcome)
      modifies this`validationErrors
      ensures outcome == Save(admin, inputs, isActive, toIsoDate, calendarOk)
      ensures validationErrors == match outcome
                                  case Invalid(errors) => errors
                                  case NoFormData => old(validationErrors)
                                  case _ => map[]
    {
      var fullname := Or(inputs.fullname, admin.fullname);
      var username := Or(inputs.username, admin.username);
      var countryCode := Or(inputs.countryCode, CountryCodeOf(admin.phone));
      var phoneNumber := Or(inputs.phoneNumber, LocalPartOf(admin.phone));
      var phone := countryCode + phoneNumber;
      var tgUsername := Or(inputs.tgUsername, admin.tgUsername);
      var birthDate := Or(inputs.birthDate, admin.birthDate);
      var isActiveValue := isActive;

      // The "no form data" guard: the country code is never empty, so
      // neither is the phone, and the guard never fires.
      assert !(fullname == "" && username == "" && phone == "" && tgUsername == "");

      if birthDate != "" {
        if !FitsMask(birthDate, "####-##-##") {
          var iso := toIsoDate(birthDate);
          if iso.Some? {
            birthDate := iso.value;
          }
        }
      }

      assert Collect(admin, inputs, isActive, toIsoDate) ==
             ChangeAdminVariables(admin.id, fullname, username, phone, tgUsername, birthDate, isActiveValue);
      outcome := ValidateAndSend(admin, fullname, username, phone, tgUsername, birthDate, isActiveValue, calendarOk);
    }

    /** The rest of `handleSave` once the values are collected. */
    method ValidateAndSend(admin: Admin, fullname: string, username: string, phone: string,
                           tgUsername: string, birthDate: string, isActiveValue: bool, calendarOk: bool)
      returns (outcome: SaveOutcome)
      modifies this`validationErrors
      ensures outcome == Decide(admin, ChangeAdminVariables(admin.id, fullname, username, phone, tgUsername, birthDate, isActiveValue), calendarOk)
      ensures validationErrors == if outcome.Invalid? then outcome.errors else map[]
    {
      var errors := ValidateAdminEditForm(
        AdminFormFields(fullname, username, "", tgUsername, phone, "", birthDate), calendarOk);
      if errors != map[] {
        validationErrors := errors;
        outcome := Invalid(errors);
        return;
      }
      validationErrors := map[];

      var mutationVariables := ChangeAdminVariables(admin.id, fullname, username, phone, tgUsername, birthDate, isActiveValue);
      var hasChanges := fullname != admin.fullname ||
        username != admin.username ||
        phone != admin.phone ||
        tgUsername != admin.tgUsername ||
        birthDate != admin.birthDate ||
        isActiveValue != admin.isActive;
      if !hasChanges {
        outcome := NoChanges;
        return;
      }
      outcome := Send(mutationVariables);
    }

    /** The number input's `onPaste`: outside editing mode nothing happens;
        otherwise the pasted digits replace the input, a leading country
        code moving to the selector. */
    method OnPaste(pastedText: string)
      modifies this`inputs
      ensures !isEditing ==> inputs == old(inputs)
      ensures isEditing ==>
                inputs == old(inputs).(countryCode := match Pasted(pastedText).0
                                                      case Some(code) => code
                                                      case None => old(inputs).countryCode,
                                       phoneNumber := Pasted(pastedText).1)
    {
      if !isEditing {
        return;
      }
      var digits := Digits(pastedText);
      if Uzbekistan <= digits {
        inputs := inputs.(phoneNumber := digits[3..]);
        inputs := inputs.(countryCode := Uzbekistan);
      } else if Turkey <= digits {
        inputs := inputs.(phoneNumber := digits[2..]);
        inputs := inputs.(countryCode := Turkey);
      } else {
        inputs := inputs.(phoneNumber := digits);
      }
    }
  }

  /** What a paste leaves behind: the country code it selects, if any, and
      the number it puts in the input. */
  function Pasted(pastedText: string): (r: (Option<string>, string))
    ensures forall i :: 0 <= i < |r.1| ==> IsDigit(r.1[i])
  {
    var digits := Digits(pastedText);
    if Uzbekistan <= digits then (Some(Uzbekistan), digits[3..])
    else if Turkey <= digits then (Some(Turkey), digits[2..])
    else (None, digits)
  }

  // ---------------------------------------------------------------- properties

  /** A paste keeps only the digits: a pasted number with a country code
      comes back whole from the selector and the input, and one without
      lands in the input as is. */
  lemma PasteKeepsDigits(pastedText: string)
    ensures Pasted(pastedText).0.Some? ==> Pasted(pastedText).0.value + Pasted(pastedText).1 == Digits(pastedText)
    ensures Pasted(pastedText).0.None? ==>
              Pasted(pastedText).1 == Digits(pastedText) &&
              !(Uzbekistan <= Digits(pastedText)) && !(Turkey <= Digits(pastedText))
  {
    var d := Digits(pastedText);
    if Uzbekistan <= d {
      assert d == d[..3] + d[3..];
    } else if Turkey <= d {
      assert d == d[..2] + d[2..];
    }
  }

  /** The selector is never empty, so the phone is never empty and the
      "no form data" guard never fires. */
  lemma NoFormDataNeverFires(admin: Admin, inputs: FormInputs, isActive: bool,
                             toIsoDate: string -> Option<string>, calendarOk: bool)
    ensures Collect(admin, inputs, isActive, toIsoDate).phone != ""
    ensures Save(admin, inputs, isActive, toIsoDate, calendarOk) != NoFormData
  {
    var countryCode := Or(inputs.countryCode, CountryCodeOf(admin.phone));
    assert countryCode != "";
  }

  /** An emptied input is never sent empty: each text value is the input
      when it is non-empty and the stored value otherwise. */
  lemma FieldsFallBack(admin: Admin, inputs: FormInputs, isActive: bool, toIsoDate: string -> Option<string>)
    ensures var v := Collect(admin, inputs, isActive, toIsoDate);
            && v.id == admin.id
            && v.fullname == (if inputs.fullname != "" then inputs.fullname else admin.fullname)
            && v.username == (if inputs.username != "" then inputs.username else admin.username)
            && v.tgUsername == (if inputs.tgUsername != "" then inputs.tgUsername else admin.tgUsername)
            && v.isActive == isActive
            && (v.fullname == "" ==> admin.fullname == "")
            && (v.username == "" ==> admin.username == "")
            && (v.tgUsername == "" ==> admin.tgUsername == "")
  {
  }

  /** A save reaches the mutation only when validation passes and something
      changed, and the mutation then carries the admin's id and all six
      current values. */
  lemma SaveGuards(admin: Admin, inputs: FormInputs, isActive: bool,
                   toIsoDate: string -> Option<string>, calendarOk: bool)
    ensures var v := Collect(admin, inputs, isActive, toIsoDate);
            var errors := FieldErrors(EditFields(v), false, calendarOk);
            && (Save(admin, inputs, isActive, toIsoDate, calendarOk).Invalid? <==> errors != map[])
            && (Save(admin, inputs, isActive, toIsoDate, calendarOk) == NoChanges <==> errors == map[] && !HasChanges(admin, v))
            && (Save(admin, inputs, isActive, toIsoDate, calendarOk).Send? <==> errors == map[] && HasChanges(admin, v))
            && (Save(admin, inputs, isActive, toIsoDate, calendarOk).Send? ==>
                  Save(admin, inputs, isActive, toIsoDate, calendarOk).variables == v)
  {
    NoFormDataNeverFires(admin, inputs, isActive, toIsoDate, calendarOk);
  }

  /** The edit form never checks the password. */
  lemma EditIgnoresPassword(admin: Admin, inputs: FormInputs, isActive: bool,
                            toIsoDate: string -> Option<string>, calendarOk: bool)
    ensures var v := Collect(admin, inputs, isActive, toIsoDate);
            Password !in FieldErrors(EditFields(v), false, calendarOk)
  {
    var v := Collect(admin, inputs, isActive, toIsoDate);
    PasswordOnlyWhenIncluded(EditFields(v), calendarOk);
  }

  /** The form as first rendered for a loaded admin. */
  function Untouched(admin: Admin): FormInputs {
    FormInputs(admin.fullname, admin.username, CountryCodeOf(admin.phone),
               LocalPartOf(admin.phone), admin.tgUsername, DateInputOf(admin.birthDate))
  }

  /** Saving the form as first rendered, for a stored birth date that is
      empty or shaped YYYY-MM-DD: nothing is sent when the stored phone
      starts with "998" or "90"; a stored phone with any other start comes
      back with "998" in front, counts as a change, and is sent unless
      validation fails. */
  lemma UntouchedForm(admin: Admin, isActive: bool, toIsoDate: string -> Option<string>, calendarOk: bool)
    requires isActive == admin.isActive
    requires admin.birthDate == "" || FitsMask(admin.birthDate, "####-##-##")
    ensures var v := Collect(admin, Untouched(admin), isActive, toIsoDate);
            var outcome := Save(admin, Untouched(admin), isActive, toIsoDate, calendarOk);
            && (Uzbekistan <= admin.phone || Turkey <= admin.phone ==> !outcome.Send?)
            && (!(Uzbekistan <= admin.phone || Turkey <= admin.phone) ==>
                  && v.phone == Uzbekistan + admin.phone
                  && HasChanges(admin, v)
                  && outcome != NoChanges)
  {
    var v := Collect(admin, Untouched(admin), isActive, toIsoDate);
    UntouchedCollect(admin, isActive, toIsoDate);
    SplitRecombine(admin.phone);
    if !(Uzbekistan <= admin.phone || Turkey <= admin.phone) {
      assert |v.phone| != |admin.phone|;
    }
    NoFormDataNeverFires(admin, Untouched(admin), isActive, toIsoDate, calendarOk);
    assert Save(admin, Untouched(admin), isActive, toIsoDate, calendarOk) == Decide(admin, v, calendarOk);
    DecideFollowsChanges(admin, v, calendarOk);
  }

  /** Without a change nothing is sent, and with one the save never ends in
      "no changes". */
  lemma DecideFollowsChanges(admin: Admin, v: ChangeAdminVariables, calendarOk: bool)
    ensures !HasChanges(admin, v) ==> !Decide(admin, v, calendarOk).Send?
    ensures HasChanges(admin, v) ==> Decide(admin, v, calendarOk) != NoChanges
  {
  }

  /** For a stored birth date that is empty or shaped YYYY-MM-DD, the
      untouched form collects the stored values, the phone put back
      together. */
  lemma UntouchedCollect(admin: Admin, isActive: bool, toIsoDate: string -> Option<string>)
    requires admin.birthDate == "" || FitsMask(admin.birthDate, "####-##-##")
    ensures Collect(admin, Untouched(admin), isActive, toIsoDate) ==
              ChangeAdminVariables(admin.id, admin.fullname, admin.username,
                                   CountryCodeOf(admin.phone) + LocalPartOf(admin.phone),
                                   admin.tgUsername, admin.birthDate, isActive)
  {
    assert 'T' !in admin.birthDate by {
      if admin.birthDate != "" {
        assert forall i :: 0 <= i < |admin.birthDate| ==> admin.birthDate[i] != 'T';
      }
    }
    DateInputOfPlainDate(admin.birthDate);
  }

  /** Saving the form as first rendered when the stored birth date carries a
      time part ("1990-05-12T00:00:00+05:00"): the date part before "T" is
      sent, it differs from the stored value, so the save always counts as
      a change and is sent unless validation fails. */
  lemma UntouchedDateTimeIsAChange(admin: Admin, isActive: bool, toIsoDate: string -> Option<string>, calendarOk: bool)
    requires 'T' in admin.birthDate
    requires FitsMask(DateInputOf(admin.birthDate), "####-##-##")
    ensures var v := Collect(admin, Untouched(admin), isActive, toIsoDate);
            var outcome := Save(admin, Untouched(admin), isActive, toIsoDate, calendarOk);
            && v.birthDate == DateInputOf(admin.birthDate)
            && v.birthDate != admin.birthDate
            && HasChanges(admin, v)
            && (outcome.Send? <==> FieldErrors(EditFields(v), false, calendarOk) == map[])
            && (outcome.Send? ==> outcome.variables == v)
  {
    var d := DateInputOf(admin.birthDate);
    assert d != admin.birthDate;
    NoFormDataNeverFires(admin, Untouched(admin), isActive, toIsoDate, calendarOk);
  }
}
