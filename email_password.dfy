/**
 * The email and password fields of the user form and the errors their
 * validation reports. The rules are those the component's tests fix; which
 * strings count as well-formed emails, and the exact minimum password
 * length, are parameters.
 */
module EmailPassword {
  import opened Js

  /** The two rules the tests leave open. */
  datatype Rules = Rules(isEmail: string -> bool, minPasswordLength: nat)

  /** What the tests' data fix about the rules: `'pir@j.k'` is an email,
      `'pirojok'` is not, `'short'` is too short and `'suchlong'` long enough. */
  predicate AgreesWithTests(rules: Rules) {
    && rules.isEmail("pir@j.k")
    && !rules.isEmail("pirojok")
    && |"short"| < rules.minPasswordLength <= |"suchlong"|
  }

  /** `EmailPasswordProps`: the emails of all users, the edited user's email
      and whether a user is being edited. */
  datatype Props = Props(allEmails: set<string>, editedUserEmail: Option<string>, isEditing: bool)

  datatype EmailPasswordError = BothOrNone | InvalidEmail | DuplicateEmail | ShortPassword

  /** The text shown for each error; the short-password text is only known
      up to its start. */
  function Message(e: EmailPasswordError): string {
    match e
    case BothOrNone => "Both email and password should be present"
    case InvalidEmail => "Invalid email"
    case DuplicateEmail => "User with this email already exists"
    case ShortPassword => "Password should be at least"
  }

  /** Exactly one of the two is filled in, except that an edited user may
      keep the password field empty. */
  predicate BothOrNoneViolated(props: Props, email: string, password: string) {
    (email == "") != (password == "") && !(props.isEditing && email != "" && password == "")
  }

  /** Another user already has this email; the edited user's own email does not count. */
  predicate IsDuplicate(props: Props, email: string) {
    email in props.allEmails && props.editedUserEmail != Some(email)
  }

  /** The errors reported for the two fields. */
  function Validate(rules: Rules, props: Props, email: string, password: string): set<EmailPasswordError> {
    (if BothOrNoneViolated(props, email, password) then {BothOrNone} else {})
    + (if email != "" && !rules.isEmail(email) then {InvalidEmail} else {})
    + (if email != "" && IsDuplicate(props, email) then {DuplicateEmail} else {})
    + (if password != "" && |password| < rules.minPasswordLength then {ShortPassword} else {})
  }

  /** Both empty or both present never gives the both-or-none error; exactly
      one present does, unless an edited user leaves the password empty. */
  lemma BothOrNoneRule(rules: Rules, props: Props, email: string, password: string)
    ensures (email == "") == (password == "") ==> BothOrNone !in Validate(rules, props, email, password)
    ensures !props.isEditing && (email == "") != (password == "") ==> BothOrNone in Validate(rules, props, email, password)
    ensures props.isEditing && email != "" && password == "" ==> BothOrNone !in Validate(rules, props, email, password)
  {
  }

  /** A present email that is not well-formed, and only such an email, is invalid. */
  lemma InvalidEmailRule(rules: Rules, props: Props, email: string, password: string)
    ensures InvalidEmail in Validate(rules, props, email, password) <==> email != "" && !rules.isEmail(email)
  {
  }

  /** A present email that another user has is a duplicate, also while a
      different user is edited; the edited user's own email never is, and an
      unused email never is. */
  lemma DuplicateEmailRule(rules: Rules, props: Props, email: string, password: string)
    ensures DuplicateEmail in Validate(rules, props, email, password) <==> email != "" && IsDuplicate(props, email)
    ensures props.editedUserEmail == Some(email) ==> DuplicateEmail !in Validate(rules, props, email, password)
    ensures email !in props.allEmails ==> DuplicateEmail !in Validate(rules, props, email, password)
  {
  }

  /** The password check ignores the email, and the email checks ignore the password. */
  lemma ChecksAreIndependent(rules: Rules, props: Props, email: string, email': string, password: string, password': string)
    ensures ShortPassword in Validate(rules, props, email, password) <==> ShortPassword in Validate(rules, props, email', password)
    ensures InvalidEmail in Validate(rules, props, email, password) <==> InvalidEmail in Validate(rules, props, email, password')
    ensures DuplicateEmail in Validate(rules, props, email, password) <==> DuplicateEmail in Validate(rules, props, email, password')
  {
  }

  /** When creating a user, the two fields pass exactly when both are empty,
      or both are present with a well-formed, unused email and a long enough
      password. */
  lemma CreatingValidExactly(rules: Rules, props: Props, email: string, password: string)
    requires !props.isEditing
    ensures Validate(rules, props, email, password) == {} <==>
      || (email == "" && password == "")
      || (&& email != "" && password != ""
          && rules.isEmail(email)
          && !IsDuplicate(props, email)
          && rules.minPasswordLength <= |password|)
  {
  }

  /** The component's test cases, for any rules that agree with the tests' data. */
  lemma EmailPasswordScenarios(rules: Rules)
    requires AgreesWithTests(rules)
    ensures var creating := Props({}, None, false);
      && BothOrNone !in Validate(rules, creating, "", "")
      && BothOrNone !in Validate(rules, creating, "pir@j.k", "pelmeni")
      && BothOrNone in Validate(rules, creating, "", "pelmeni")
      && BothOrNone in Validate(rules, creating, "pir@j.k", "")
      && BothOrNone !in Validate(rules, Props({}, None, true), "pir@j.k", "")
      && InvalidEmail !in Validate(rules, creating, "pir@j.k", "pelmeni")
      && InvalidEmail in Validate(rules, creating, "pirojok", "lol")
      && DuplicateEmail in Validate(rules, Props({"pir@j.k"}, None, false), "pir@j.k", "lollol")
      && DuplicateEmail !in Validate(rules, Props({"pir@j.k"}, Some("pir@j.k"), true), "pir@j.k", "lollol")
      && ShortPassword !in Validate(rules, creating, "pir@j.k", "suchlong")
      && ShortPassword in Validate(rules, creating, "pir@j.k", "short")
      && InvalidEmail !in Validate(rules, creating, "pir@j.k", "short")
  {
  }
}
