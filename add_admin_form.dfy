/** `formReducer` and `initialFormState` of
    src/components/AddAdmin/AddAdminConstants.js: the state of the add-admin
    modal, a plain JavaScript object updated by tagged actions. The object is
    a map from property name to value, so that a property can be missing. */
module AddAdminForm {

  /** A property value: a string, a boolean, `null`, `undefined`, or an
      error dictionary. */
  datatype Value = Str(s: string) | Bool(b: bool) | Null | Undefined | Dict(entries: map<string, string>)

  type FormState = map<string, Value>

  /** An action object; a property the dispatcher did not set is
      `Undefined`, and `field` is the property name `[action.field]`
      resolves to. */
  datatype Action = Action(kind: string, field: string, value: Value, errors: Value, open: Value)

  const SetField := "SET_FIELD"
  const SetErrors := "SET_ERRORS"
  const ClearForm := "CLEAR_FORM"
  const SetModal := "SET_MODAL"

  /** The text properties of the form, empty when the form is blank. */
  const TextFields := {"username", "fullname", "password", "tgUsername", "phoneNumber"}

  /** The object `CLEAR_FORM` returns. */
  const Cleared: FormState := map[
    "username" := Str(""),
    "fullname" := Str(""),
    "password" := Str(""),
    "tgUsername" := Str(""),
    "countryCode" := Str("90"),
    "phoneNumber" := Str(""),
    "birthDate" := Null,
    "errors" := Dict(map[])]

  /** `initialFormState`. */
  const InitialFormState: FormState := Cleared["open" := Bool(false)]

  function FormReducer(state: FormState, action: Action): FormState {
    if action.kind == SetField then state[action.field := action.value]
    else if action.kind == SetErrors then state["errors" := action.errors]
    else if action.kind == ClearForm then Cleared
    else if action.kind == SetModal then state["open" := action.open]
    else state
  }

  /** `SET_FIELD` sets the named property and leaves every other one as it
      was. */
  lemma SetFieldOnlyField(state: FormState, action: Action)
    requires action.kind == SetField
    ensures var r := FormReducer(state, action);
            && action.field in r && r[action.field] == action.value
            && r.Keys == state.Keys + {action.field}
            && forall k :: k in state && k != action.field ==> r[k] == state[k]
  {
  }

  /** `SET_ERRORS` replaces only `errors`; `SET_MODAL` only `open`. */
  lemma SetErrorsAndModalAreLocal(state: FormState, action: Action)
    ensures action.kind == SetErrors ==>
              var r := FormReducer(state, action);
              r["errors"] == action.errors && r - {"errors"} == state - {"errors"}
    ensures action.kind == SetModal ==>
              var r := FormReducer(state, action);
              r["open"] == action.open && r - {"open"} == state - {"open"}
  {
  }

  /** `CLEAR_FORM` ignores the state it is given, so clearing twice is
      clearing once. */
  lemma ClearFormIgnoresState(s1: FormState, s2: FormState, action: Action)
    requires action.kind == ClearForm
    ensures FormReducer(s1, action) == FormReducer(s2, action)
    ensures FormReducer(FormReducer(s1, action), action) == FormReducer(s1, action)
  {
  }

  /** The cleared form: empty text properties, country code "90", no birth
      date and no errors, and no `open` property at all, unlike
      `initialFormState`, which differs from it only by `open: false`. */
  lemma ClearedShape()
    ensures forall k :: k in TextFields ==> k in Cleared && Cleared[k] == Str("")
    ensures Cleared["countryCode"] == Str("90")
    ensures Cleared["birthDate"] == Null && Cleared["errors"] == Dict(map[])
    ensures "open" !in Cleared
    ensures InitialFormState["open"] == Bool(false)
    ensures InitialFormState - {"open"} == Cleared
  {
    assert "open" !in Cleared.Keys;
  }

  /** The initial form: modal closed, empty text properties, country code
      "90", no birth date and no errors. */
  lemma InitialShape()
    ensures InitialFormState.Keys == TextFields + {"open", "countryCode", "birthDate", "errors"}
    ensures forall k :: k in TextFields ==> InitialFormState[k] == Str("")
    ensures InitialFormState["open"] == Bool(false)
    ensures InitialFormState["countryCode"] == Str("90")
    ensures InitialFormState["birthDate"] == Null
    ensures InitialFormState["errors"] == Dict(map[])
  {
  }

  /** An action of any other type returns the state itself. */
  lemma UnknownActionKeepsState(state: FormState, action: Action)
    requires action.kind !in {SetField, SetErrors, ClearForm, SetModal}
    ensures FormReducer(state, action) == state
  {
  }

  /** After a successful add the hook dispatches `CLEAR_FORM` and then
      `SET_MODAL` with `open: false`, which brings any state back to
      `initialFormState`. */
  lemma CompletedAddResetsForm(state: FormState, clear: Action, close: Action)
    requires clear.kind == ClearForm
    requires close.kind == SetModal && close.open == Bool(false)
    ensures FormReducer(FormReducer(state, clear), close) == InitialFormState
  {
  }
}
