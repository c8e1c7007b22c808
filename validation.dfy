/** The two form schemas: per field, a list of rules, each with a fixed
    message. A form is the record of field values the page submits; a key that
    the form does not supply is undefined. The email-format check belongs to
    the validation library and is a parameter here. */
module Validation {
  import opened Base

  datatype Rule =
    | Required(message: string)
    | MinLength(min: nat, message: string)
    | EmailFormat(message: string)
    | SameAs(other: string, message: string)

  type Form = map<string, string>
  type Schema = map<string, seq<Rule>>

  /** Whether the value of `key` breaks the rule. `required` rejects an
      undefined or empty string; `min` and the email format skip an undefined
      value, and the email format also skips the empty string; `oneOf` with a
      reference skips an undefined value and otherwise needs the referenced
      field's value. */
  predicate Breaks(rule: Rule, key: string, form: Form, isEmail: string -> bool) {
    var v := Lookup(form, key);
    match rule
    case Required(_) => !Truthy(v)
    case MinLength(n, _) => v.Some? && |v.value| < n
    case EmailFormat(_) => v.Some? && v.value != "" && !isEmail(v.value)
    case SameAs(other, _) => v.Some? && Lookup(form, other) != v
  }

  /** The messages of the rules a field breaks. */
  function FieldErrors(rules: seq<Rule>, key: string, form: Form, isEmail: string -> bool): set<string> {
    set i | 0 <= i < |rules| && Breaks(rules[i], key, form, isEmail) :: rules[i].message
  }

  /** Validation of a whole form: every schema field that breaks a rule, with
      its messages. The form passes when this is empty. */
  function Validate(schema: Schema, form: Form, isEmail: string -> bool): map<string, set<string>> {
    map k | k in schema && FieldErrors(schema[k], k, form, isEmail) != {} :: FieldErrors(schema[k], k, form, isEmail)
  }

  /** The messages reported for a field; none when it passes. */
  function ErrorsAt(errors: map<string, set<string>>, key: string): set<string> {
    if key in errors then errors[key] else {}
  }

  /** A field is reported exactly when it is in the schema and breaks a rule. */
  lemma ValidateAt(schema: Schema, form: Form, isEmail: string -> bool, key: string)
    ensures ErrorsAt(Validate(schema, form, isEmail), key)
         == if key in schema then FieldErrors(schema[key], key, form, isEmail) else {}
  {
  }

  /** A form passes exactly when no schema field breaks a rule. */
  lemma ValidateEmpty(schema: Schema, form: Form, isEmail: string -> bool)
    ensures Validate(schema, form, isEmail) == map[]
        <==> forall k :: k in schema ==> FieldErrors(schema[k], k, form, isEmail) == {}
  {
    var v := Validate(schema, form, isEmail);
    if forall k :: k in schema ==> FieldErrors(schema[k], k, form, isEmail) == {} {
      assert v.Keys == {};
    } else {
      var k :| k in schema && FieldErrors(schema[k], k, form, isEmail) != {};
      assert k in v;
    }
  }

  const EmailInvalid := "Invalid email format"
  const EmailRequired := "Email is required"
  const PasswordTooShort := "Password must be at least 6 characters long"
  const PasswordRequired := "Password is required"
  const FirstNameRequired := "First name is required"
  const LastNameRequired := "Lats name is required"
  const PasswordsDiffer := "Passwords must match"
  const ConfirmRequired := "Confirm password is required"

  const EmailRules := [EmailFormat(EmailInvalid), Required(EmailRequired)]
  const PasswordRules := [MinLength(6, PasswordTooShort), Required(PasswordRequired)]
  const ConfirmRules := [SameAs("password", PasswordsDiffer), Required(ConfirmRequired)]

  function LoginSchema(): Schema {
    map["email" := EmailRules, "password" := PasswordRules]
  }

  /** The register schema as written, with the keys "firtname" and "lastname". */
  function RegisterSchema(): Schema {
    map[
      "firtname" := [Required(FirstNameRequired)],
      "lastname" := [Required(LastNameRequired)],
      "email" := EmailRules,
      "password" := PasswordRules,
      "confirmPassword" := ConfirmRules]
  }

  /** The register schema keyed by the names the register form supplies. */
  function IntendedRegisterSchema(): Schema {
    map[
      "firstName" := [Required(FirstNameRequired)],
      "lastName" := [Required(LastNameRequired)],
      "email" := EmailRules,
      "password" := PasswordRules,
      "confirmPassword" := ConfirmRules]
  }

  /** The record the register page submits: its inputs are registered as
      "firstName", "lastName", "email", "password" and "confirmPassword". */
  function RegisterPageForm(firstName: string, lastName: string, email: string, password: string, confirm: string): Form {
    map["firstName" := firstName, "lastName" := lastName, "email" := email,
        "password" := password, "confirmPassword" := confirm]
  }

  /** The email field's messages: required when undefined or empty, the
      format message when present but malformed, none otherwise. */
  lemma EmailErrors(form: Form, isEmail: string -> bool)
    ensures FieldErrors(EmailRules, "email", form, isEmail)
         == if !Truthy(Lookup(form, "email")) then {EmailRequired}
            else if !isEmail(form["email"]) then {EmailInvalid}
            else {}
  {
    var e := FieldErrors(EmailRules, "email", form, isEmail);
    if !Truthy(Lookup(form, "email")) {
      assert Breaks(EmailRules[1], "email", form, isEmail);
    } else if !isEmail(form["email"]) {
      assert Breaks(EmailRules[0], "email", form, isEmail);
    }
  }

  /** The password field's messages: an undefined password breaks only the
      required rule, an empty one breaks both rules, a short one only the
      minimum length. */
  lemma PasswordErrors(form: Form, isEmail: string -> bool)
    ensures FieldErrors(PasswordRules, "password", form, isEmail)
         == if "password" !in form then {PasswordRequired}
            else if form["password"] == "" then {PasswordTooShort, PasswordRequired}
            else if |form["password"]| < 6 then {PasswordTooShort}
            else {}
  {
    if "password" !in form || form["password"] == "" {
      assert Breaks(PasswordRules[1], "password", form, isEmail);
    }
    if "password" in form && |form["password"]| < 6 {
      assert Breaks(PasswordRules[0], "password", form, isEmail);
    }
  }

  /** The confirmation field's messages: required when undefined or empty,
      the mismatch message whenever it is defined and differs from the
      password. */
  lemma ConfirmErrors(form: Form, isEmail: string -> bool)
    ensures FieldErrors(ConfirmRules, "confirmPassword", form, isEmail)
         == (if "confirmPassword" in form && Lookup(form, "password") != Some(form["confirmPassword"])
             then {PasswordsDiffer} else {})
          + (if !Truthy(Lookup(form, "confirmPassword")) then {ConfirmRequired} else {})
  {
    if !Truthy(Lookup(form, "confirmPassword")) {
      assert Breaks(ConfirmRules[1], "confirmPassword", form, isEmail);
    }
    if "confirmPassword" in form && Lookup(form, "password") != Some(form["confirmPassword"]) {
      assert Breaks(ConfirmRules[0], "confirmPassword", form, isEmail);
    }
  }

  /** A name field's message: required when undefined or empty. */
  lemma NameErrors(message: string, key: string, form: Form, isEmail: string -> bool)
    ensures FieldErrors([Required(message)], key, form, isEmail) == if Truthy(Lookup(form, key)) then {} else {message}
  {
    if !Truthy(Lookup(form, key)) {
      assert Breaks([Required(message)][0], key, form, isEmail);
    }
  }

  /** The login form passes exactly when the email is present, non-empty and
      well-formed and the password has at least 6 characters; otherwise each
      failing field carries its messages. */
  lemma LoginValidation(form: Form, isEmail: string -> bool)
    ensures Validate(LoginSchema(), form, isEmail) == map[]
        <==> Truthy(Lookup(form, "email")) && isEmail(form["email"])
             && "password" in form && |form["password"]| >= 6
    ensures ErrorsAt(Validate(LoginSchema(), form, isEmail), "email")
         == if !Truthy(Lookup(form, "email")) then {EmailRequired}
            else if !isEmail(form["email"]) then {EmailInvalid}
            else {}
    ensures ErrorsAt(Validate(LoginSchema(), form, isEmail), "password")
         == if "password" !in form then {PasswordRequired}
            else if form["password"] == "" then {PasswordTooShort, PasswordRequired}
            else if |form["password"]| < 6 then {PasswordTooShort}
            else {}
  {
    EmailErrors(form, isEmail);
    PasswordErrors(form, isEmail);
    ValidateAt(LoginSchema(), form, isEmail, "email");
    ValidateAt(LoginSchema(), form, isEmail, "password");
    ValidateEmpty(LoginSchema(), form, isEmail);
    assert LoginSchema().Keys == {"email", "password"};
  }

  /** A malformed email and a 3-character password give one message each. */
  lemma BadLoginExample(isEmail: string -> bool)
    requires !isEmail("bad")
    ensures Validate(LoginSchema(), map["email" := "bad", "password" := "abc"], isEmail)
         == map["email" := {EmailInvalid}, "password" := {PasswordTooShort}]
  {
    var form := map["email" := "bad", "password" := "abc"];
    EmailErrors(form, isEmail);
    PasswordErrors(form, isEmail);
    var v := Validate(LoginSchema(), form, isEmail);
    assert v.Keys == {"email", "password"};
  }

  /** As written, the register schema validates "firtname" and "lastname",
      which the register page never supplies: every record the page submits
      fails both required checks, so the form never reaches submission. */
  lemma RegisterPageFormAlwaysRejected(firstName: string, lastName: string, email: string, password: string,
                                       confirm: string, isEmail: string -> bool)
    ensures ErrorsAt(Validate(RegisterSchema(), RegisterPageForm(firstName, lastName, email, password, confirm), isEmail), "firtname")
         == {FirstNameRequired}
    ensures ErrorsAt(Validate(RegisterSchema(), RegisterPageForm(firstName, lastName, email, password, confirm), isEmail), "lastname")
         == {LastNameRequired}
    ensures Validate(RegisterSchema(), RegisterPageForm(firstName, lastName, email, password, confirm), isEmail) != map[]
  {
    var form := RegisterPageForm(firstName, lastName, email, password, confirm);
    assert Lookup(form, "firtname") == None && Lookup(form, "lastname") == None;
    NameErrors(FirstNameRequired, "firtname", form, isEmail);
    NameErrors(LastNameRequired, "lastname", form, isEmail);
    ValidateAt(RegisterSchema(), form, isEmail, "firtname");
    ValidateAt(RegisterSchema(), form, isEmail, "lastname");
  }

  /** With the keys the page supplies, a register form passes exactly when
      both names are non-empty, the email is well-formed, the password has at
      least 6 characters and the confirmation equals it. */
  lemma IntendedRegisterValidation(firstName: string, lastName: string, email: string, password: string,
                                   confirm: string, isEmail: string -> bool)
    ensures Validate(IntendedRegisterSchema(), RegisterPageForm(firstName, lastName, email, password, confirm), isEmail) == map[]
        <==> firstName != "" && lastName != "" && email != "" && isEmail(email)
             && |password| >= 6 && confirm == password
  {
    var form := RegisterPageForm(firstName, lastName, email, password, confirm);
    assert Lookup(form, "firstName") == Some(firstName) && Lookup(form, "lastName") == Some(lastName);
    assert Lookup(form, "email") == Some(email) && Lookup(form, "password") == Some(password);
    assert Lookup(form, "confirmPassword") == Some(confirm);
    NameErrors(FirstNameRequired, "firstName", form, isEmail);
    NameErrors(LastNameRequired, "lastName", form, isEmail);
    EmailErrors(form, isEmail);
    PasswordErrors(form, isEmail);
    ConfirmErrors(form, isEmail);
    ValidateEmpty(IntendedRegisterSchema(), form, isEmail);
    assert IntendedRegisterSchema().Keys == {"firstName", "lastName", "email", "password", "confirmPassword"};
  }

  /** A defined confirmation that differs from the password fails with its
      message, under both register schemas. */
  lemma RegisterConfirmMismatch(form: Form, isEmail: string -> bool)
    requires "confirmPassword" in form && Lookup(form, "password") != Some(form["confirmPassword"])
    ensures PasswordsDiffer in ErrorsAt(Validate(RegisterSchema(), form, isEmail), "confirmPassword")
    ensures PasswordsDiffer in ErrorsAt(Validate(IntendedRegisterSchema(), form, isEmail), "confirmPassword")
  {
    ConfirmErrors(form, isEmail);
    ValidateAt(RegisterSchema(), form, isEmail, "confirmPassword");
    ValidateAt(IntendedRegisterSchema(), form, isEmail, "confirmPassword");
  }
}
