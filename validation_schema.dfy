/** The Yup schemas for the user routes. `required()` rejects a missing field and the empty
    string; `min`/`max` skip only a missing field; the email test skips the empty string.
    Whether a string is an email is left to an abstract predicate. */
module ValidationSchema {
  import opened Wrappers
  import opened Http

  const MinPassword := 8
  const MaxPassword := 20

  datatype Schema = LoginSchema | SignupSchema | UpdateUserSchema

  /** The `email` rule, required or (in an update) not: the message of its failing test. */
  function EmailRule(v: Option<string>, required: bool, isEmail: string -> bool): (r: Option<string>)
    ensures r.None? <==> (required ==> Truthy(v)) && (Truthy(v) ==> isEmail(v.value))
    ensures required && !Truthy(v) ==> r == Some("Email is required")
    ensures Truthy(v) && !isEmail(v.value) ==> r == Some("Email must be valid")
  {
    if !Truthy(v) then (if required then Some("Email is required") else None)
    else if !isEmail(v.value) then Some("Email must be valid")
    else None
  }

  /** The `password` rule: present (when required) and 8 to 20 characters. */
  function PasswordRule(v: Option<string>, required: bool): (r: Option<string>)
    ensures r.None? <==> (required ==> Truthy(v)) && (v.Some? ==> MinPassword <= |v.value| <= MaxPassword)
    ensures required && !Truthy(v) ==> r == Some("Password is required")
    ensures (!required || Truthy(v)) && v.Some? && |v.value| < MinPassword ==>
              r == Some("Password must be at least 8 characters")
    ensures (!required || Truthy(v)) && v.Some? && |v.value| > MaxPassword ==>
              r == Some("Password can't be longer than 20 characters")
  {
    if required && !Truthy(v) then Some("Password is required")
    else if v.None? then None
    else if |v.value| < MinPassword then Some("Password must be at least 8 characters")
    else if |v.value| > MaxPassword then Some("Password can't be longer than 20 characters")
    else None
  }

  /** The `name` rule: required at signup, free in an update, absent from login. */
  function NameRule(v: Option<string>, required: bool): (r: Option<string>)
    ensures r.None? <==> (required ==> Truthy(v))
    ensures r.Some? ==> r.value == "Name is required"
  {
    if required && !Truthy(v) then Some("Name is required") else None
  }

  /** The message of a failing rule, none of a passing one. */
  function Message(rule: Option<string>): (r: seq<string>)
    ensures r == [] <==> rule.None?
  {
    if rule.Some? then [rule.value] else []
  }

  /** The messages of the schema's failing field rules on `body`, in shape order; the body
      passes when there are none. Login needs a valid email and an 8-20 character password;
      signup needs a non-empty name as well; in an update every field may be missing, but an
      email given non-empty must be valid and a password given must still be 8-20 long. */
  function Failures(schema: Schema, body: UserFields, isEmail: string -> bool): (r: seq<string>)
    ensures schema == LoginSchema ==>
              (r == [] <==> Truthy(body.email) && isEmail(body.email.value) && body.password.Some? &&
                            MinPassword <= |body.password.value| <= MaxPassword)
    ensures schema == SignupSchema ==>
              (r == [] <==> Truthy(body.name) && Truthy(body.email) && isEmail(body.email.value) &&
                            body.password.Some? && MinPassword <= |body.password.value| <= MaxPassword)
    ensures schema == UpdateUserSchema ==>
              (r == [] <==> (Truthy(body.email) ==> isEmail(body.email.value)) &&
                            (body.password.Some? ==> MinPassword <= |body.password.value| <= MaxPassword))
  {
    match schema
    case LoginSchema =>
      Message(EmailRule(body.email, true, isEmail)) + Message(PasswordRule(body.password, true))
    case SignupSchema =>
      Message(NameRule(body.name, true)) + Message(EmailRule(body.email, true, isEmail)) +
      Message(PasswordRule(body.password, true))
    case UpdateUserSchema =>
      Message(NameRule(body.name, false)) + Message(EmailRule(body.email, false, isEmail)) +
      Message(PasswordRule(body.password, false))
  }

  /** A body passing the signup schema passes the login schema. */
  lemma SignupImpliesLogin(body: UserFields, isEmail: string -> bool)
    ensures Failures(SignupSchema, body, isEmail) == [] ==> Failures(LoginSchema, body, isEmail) == []
  {
  }
}
