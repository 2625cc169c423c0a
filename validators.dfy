/** The express-validator chains of the older generation. Each chain runs all its
    validators in order; `trim` changes the value seen by the validators after it;
    `withMessage` names the previous validator's error, the others say "Invalid value";
    `optional()` skips a chain when the field is missing. `escape()` only sanitises the
    stored value and decides nothing. */
module Validators {
  import opened Wrappers
  import opened Strings

  const DefaultMessage := "Invalid value"
  const EmailMessage := "Email must be valid"
  const PasswordMessage := "Password must be between 6 and 20 characters"
  const NameMessage := "Name is required"
  const MinPassword := 6
  const MaxPassword := 20

  datatype FieldError = FieldError(field: string, message: string)

  datatype Fields = Fields(name: Option<string>, email: Option<string>, password: Option<string>)

  /** express-validator reads a missing field as the empty string. */
  function Raw(v: Option<string>): string {
    v.GetOr("")
  }

  function NotEmpty(field: string, value: string, message: string): seq<FieldError> {
    if value == "" then [FieldError(field, message)] else []
  }

  /** `trim().isEmail()` */
  function TrimmedEmail(value: string, isEmail: string -> bool): seq<FieldError> {
    if isEmail(Trim(value)) then [] else [FieldError("email", EmailMessage)]
  }

  /** `trim().isLength({ min: 6, max: 20 })` */
  function TrimmedPassword(value: string): seq<FieldError> {
    if MinPassword <= |Trim(value)| <= MaxPassword then [] else [FieldError("password", PasswordMessage)]
  }

  /** `loginValidator`: the email must be non-empty and valid after trimming; the password
      must be 6-20 characters after trimming, which already makes it non-empty. */
  function LoginErrors(body: Fields, isEmail: string -> bool): (r: seq<FieldError>)
    ensures r == [] <==>
              Raw(body.email) != "" && isEmail(Trim(Raw(body.email))) &&
              MinPassword <= |Trim(Raw(body.password))| <= MaxPassword
  {
    NotEmpty("email", Raw(body.email), DefaultMessage) + TrimmedEmail(Raw(body.email), isEmail) +
    NotEmpty("password", Raw(body.password), DefaultMessage) + TrimmedPassword(Raw(body.password))
  }

  /** `signupValidator`: the name rule followed by all login rules. */
  function SignupErrors(body: Fields, isEmail: string -> bool): (r: seq<FieldError>)
    ensures r == [] <==> Raw(body.name) != "" && LoginErrors(body, isEmail) == []
    ensures Raw(body.name) != "" ==> r == LoginErrors(body, isEmail)
  {
    NotEmpty("name", Raw(body.name), NameMessage) + LoginErrors(body, isEmail)
  }

  /** `updateUserValidator`: every field is optional; an email given must be valid after
      trimming and a password given must be 6-20 characters after trimming. */
  function UpdateErrors(body: Fields, isEmail: string -> bool): (r: seq<FieldError>)
    ensures r == [] <==>
              (body.email.Some? ==> isEmail(Trim(body.email.value))) &&
              (body.password.Some? ==> MinPassword <= |Trim(body.password.value)| <= MaxPassword)
    ensures body.email.None? && body.password.None? ==> r == []
  {
    (if body.email.Some? then TrimmedEmail(body.email.value, isEmail) else []) +
    (if body.password.Some? then TrimmedPassword(body.password.value) else [])
  }

  /** A password of white space alone passes `notEmpty` but never the length test. */
  lemma BlankPasswordRejected(body: Fields, isEmail: string -> bool)
    requires forall i :: 0 <= i < |Raw(body.password)| ==> IsSpace(Raw(body.password)[i])
    ensures LoginErrors(body, isEmail) != []
  {
    var p := Raw(body.password);
    if Trim(p) != [] {
      assert !IsSpace(Trim(p)[0]);
      AllSpaceTrimsToEmpty(p);
    }
  }

  /** When every character of `s` is white space, trimming leaves nothing. */
  lemma AllSpaceTrimsToEmpty(s: string)
    requires forall i :: 0 <= i < |s| ==> IsSpace(s[i])
    ensures Trim(s) == []
  {
    AllSpaceTrimStart(s);
  }

  lemma {:induction false} AllSpaceTrimStart(s: string)
    requires forall i :: 0 <= i < |s| ==> IsSpace(s[i])
    ensures TrimStart(s) == []
  {
    if |s| > 0 {
      AllSpaceTrimStart(s[1..]);
    }
  }
}
