/**
 * The "authentication method" section of the user form: a cross-field rule
 * that requires an email or a phone number, kept as one entry of the form's
 * shared error map, and the header that says so.
 */
module SignInMethod {
  import opened Js

  /** The key of the cross-field error in the form's error map. */
  const ERROR_AT_LEAST_ONE_METHOD_REQUIRED := "atLeastOneMethodRequired"

  const ALERT_TEXT := "One method is required. Please enter either an email/password or phone number."
  const HINT_TEXT := "Enter details for at least one of the following methods:"

  /** One entry of the form's error map. */
  datatype FieldError = FieldError(message: string)

  type ErrorMap = map<string, FieldError>

  /** `email !== ''`: only the empty string counts as no email; `undefined` does not. */
  predicate HasEmail(email: Option<string>) {
    email != Some("")
  }

  /** `!!phoneNumber`. */
  predicate HasPhone(phoneNumber: Option<string>) {
    Truthy(phoneNumber)
  }

  /** The error map once the effect has run: the at-least-one entry is
      present exactly when there is neither an email nor a phone number, and
      no other entry is touched. */
  function WithAtLeastOneMethodRule(errors: ErrorMap, email: Option<string>, phoneNumber: Option<string>): (r: ErrorMap)
    ensures ERROR_AT_LEAST_ONE_METHOD_REQUIRED in r <==> email == Some("") && !Truthy(phoneNumber)
    ensures ERROR_AT_LEAST_ONE_METHOD_REQUIRED in r ==> r[ERROR_AT_LEAST_ONE_METHOD_REQUIRED] == FieldError("at least")
    ensures forall k :: k in errors && k != ERROR_AT_LEAST_ONE_METHOD_REQUIRED ==> k in r && r[k] == errors[k]
    ensures forall k :: k in r && k != ERROR_AT_LEAST_ONE_METHOD_REQUIRED ==> k in errors
  {
    if HasEmail(email) || HasPhone(phoneNumber) then
      errors - {ERROR_AT_LEAST_ONE_METHOD_REQUIRED}
    else
      errors[ERROR_AT_LEAST_ONE_METHOD_REQUIRED := FieldError("at least")]
  }

  /** `touchedFields['email'] || touchedFields['phoneNumber']`. */
  predicate IsTouched(touchedFields: set<string>) {
    "email" in touchedFields || "phoneNumber" in touchedFields
  }

  /** The at-least-one entry is in the map and is its only entry. */
  predicate IsOnlyError(errors: ErrorMap) {
    ERROR_AT_LEAST_ONE_METHOD_REQUIRED in errors && |errors| == 1
  }

  /** What the section header shows under its title. */
  datatype Header = Alert(text: string) | Hint(text: string)

  function MethodHeader(touchedFields: set<string>, errors: ErrorMap): Header {
    if IsTouched(touchedFields) && IsOnlyError(errors) then Alert(ALERT_TEXT) else Hint(HINT_TEXT)
  }

  /** The form state the section works on: `formState.errors` and
      `formState.touchedFields` of the shared form. */
  class FormState {
    var errors: ErrorMap
    var touchedFields: set<string>

    constructor (touched: set<string>)
      ensures errors == map[] && touchedFields == touched
    {
      errors := map[];
      touchedFields := touched;
    }

    /** `setError(name, error)`: adds or replaces one entry. */
    method SetError(name: string, error: FieldError)
      modifies this`errors
      ensures errors == old(errors)[name := error]
    {
      errors := errors[name := error];
    }

    /** `clearErrors(name)`: removes one entry, if present. */
    method ClearErrors(name: string)
      modifies this`errors
      ensures errors == old(errors) - {name}
    {
      errors := errors - {name};
    }

    /** The section's `useEffect`, run with the watched email and phone number. */
    method RunAtLeastOneMethodEffect(email: Option<string>, phoneNumber: Option<string>)
      modifies this`errors
      ensures errors == WithAtLeastOneMethodRule(old(errors), email, phoneNumber)
    {
      var hasEmail := email != Some("");
      var hasPhone := phoneNumber.Some? && phoneNumber.value != "";
      if hasEmail || hasPhone {
        ClearErrors(ERROR_AT_LEAST_ONE_METHOD_REQUIRED);
      } else {
        SetError(ERROR_AT_LEAST_ONE_METHOD_REQUIRED, FieldError("at least"));
      }
    }
  }

  /** An `undefined` email is not "no email": the rule clears its error. */
  lemma UndefinedEmailClearsError(errors: ErrorMap, phoneNumber: Option<string>)
    ensures ERROR_AT_LEAST_ONE_METHOD_REQUIRED !in WithAtLeastOneMethodRule(errors, None, phoneNumber)
  {
  }

  /** Running the effect again on the same inputs changes nothing. */
  lemma {:induction false} RuleIsIdempotent(errors: ErrorMap, email: Option<string>, phoneNumber: Option<string>)
    ensures var once := WithAtLeastOneMethodRule(errors, email, phoneNumber);
            WithAtLeastOneMethodRule(once, email, phoneNumber) == once
  {
    var once := WithAtLeastOneMethodRule(errors, email, phoneNumber);
    var twice := WithAtLeastOneMethodRule(once, email, phoneNumber);
    assert twice.Keys == once.Keys;
  }

  /** A map holding the at-least-one entry and some other entry has two entries. */
  lemma {:induction false} TwoKeysMeansNotOnly(errors: ErrorMap, other: string)
    requires ERROR_AT_LEAST_ONE_METHOD_REQUIRED in errors && other in errors
    requires other != ERROR_AT_LEAST_ONE_METHOD_REQUIRED
    ensures !IsOnlyError(errors)
  {
    assert {ERROR_AT_LEAST_ONE_METHOD_REQUIRED, other} <= errors.Keys;
    assert |{ERROR_AT_LEAST_ONE_METHOD_REQUIRED, other}| == 2;
    assert |errors.Keys| >= 2 by {
      SubsetCardinality({ERROR_AT_LEAST_ONE_METHOD_REQUIRED, other}, errors.Keys);
    }
  }

  lemma SubsetCardinality(a: set<string>, b: set<string>)
    requires a <= b
    ensures |a| <= |b|
  {
    assert b == a + (b - a);
  }

  /** Once the effect has run over the other fields' errors, the alert shows
      exactly when email or phone was touched, neither an email nor a phone
      number is given, and no other field has an error. */
  lemma {:induction false} AlertExactlyWhenNoMethodAndNoOtherError(
    touchedFields: set<string>, others: ErrorMap, email: Option<string>, phoneNumber: Option<string>)
    requires ERROR_AT_LEAST_ONE_METHOD_REQUIRED !in others
    ensures MethodHeader(touchedFields, WithAtLeastOneMethodRule(others, email, phoneNumber)).Alert?
        <==> IsTouched(touchedFields) && others == map[] && email == Some("") && !Truthy(phoneNumber)
  {
    var errors := WithAtLeastOneMethodRule(others, email, phoneNumber);
    if others != map[] && ERROR_AT_LEAST_ONE_METHOD_REQUIRED in errors {
      var k :| k in others;
      TwoKeysMeansNotOnly(errors, k);
    }
    if others == map[] && email == Some("") && !Truthy(phoneNumber) {
      assert errors.Keys == {ERROR_AT_LEAST_ONE_METHOD_REQUIRED};
    }
  }

  /** The section's test cases, with the email field touched as the tests do it:
      a phone number alone, an email with a valid password, or all three
      fields show no alert; an email without a password beside a phone
      number, which leaves another field's error, shows no alert; all fields
      empty shows it. The last case but one goes beyond the tests: an error of
      another field suppresses the alert even with all fields empty. */
  lemma SignInMethodScenarios(otherError: string)
    requires otherError != ERROR_AT_LEAST_ONE_METHOD_REQUIRED
    ensures MethodHeader({"email"}, WithAtLeastOneMethodRule(map[], Some(""), Some("+1 689 689 6899"))).Hint?
    ensures MethodHeader({"email"}, WithAtLeastOneMethodRule(map[], Some("pir@j.k"), Some(""))).Hint?
    ensures MethodHeader({"email"}, WithAtLeastOneMethodRule(map[], Some("pir@j.k"), Some("+1 689 689 6899"))).Hint?
    ensures MethodHeader({"email"}, WithAtLeastOneMethodRule(map[otherError := FieldError("")], Some("pir@j.k"), Some("+1 689 689 6899"))).Hint?
    ensures MethodHeader({"email"}, WithAtLeastOneMethodRule(map[otherError := FieldError("")], Some(""), Some(""))).Hint?
    ensures MethodHeader({"email"}, WithAtLeastOneMethodRule(map[], Some(""), Some(""))) == Alert(ALERT_TEXT)
  {
    AlertExactlyWhenNoMethodAndNoOtherError({"email"}, map[], Some(""), Some("+1 689 689 6899"));
    AlertExactlyWhenNoMethodAndNoOtherError({"email"}, map[], Some("pir@j.k"), Some(""));
    AlertExactlyWhenNoMethodAndNoOtherError({"email"}, map[], Some("pir@j.k"), Some("+1 689 689 6899"));
    AlertExactlyWhenNoMethodAndNoOtherError({"email"}, map[otherError := FieldError("")], Some("pir@j.k"), Some("+1 689 689 6899"));
    AlertExactlyWhenNoMethodAndNoOtherError({"email"}, map[otherError := FieldError("")], Some(""), Some(""));
    AlertExactlyWhenNoMethodAndNoOtherError({"email"}, map[], Some(""), Some(""));
  }
}
