/** `validateSchema(schema)`: validates `req.body` and either calls `next()` or answers 400
    with the validation error. Yup stops at the first failing test, so the error carries
    the message of one failing rule. */
module ValidationMiddleware {
  import opened Http
  import ValidationSchema

  const BadRequest := 400

  /** Exactly one of the two happens for each request. */
  datatype Verdict = CallNext | Reject(status: int, error: string)

  /** The stage reads only the body: it calls `next()` exactly when the body passes, and
      otherwise answers 400 with the message of a rule the body fails. */
  function ValidateSchema(schema: ValidationSchema.Schema, body: UserFields, isEmail: string -> bool): (v: Verdict)
    ensures v.CallNext? <==> ValidationSchema.Failures(schema, body, isEmail) == []
    ensures v.Reject? ==> v.status == BadRequest && v.error in ValidationSchema.Failures(schema, body, isEmail)
  {
    var errors := ValidationSchema.Failures(schema, body, isEmail);
    if errors == [] then CallNext else Reject(BadRequest, errors[0])
  }
}
