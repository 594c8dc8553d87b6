/**
 * The express-validator rules that run before the register and login
 * handlers (the `check(...)` arrays of src/routes/auth.routes.js).
 * Each rule is one `check(field, message)` chain with one validator; the
 * handler then asks `validationResult(req)` whether any chain failed.
 */
module Validation {

  /** The request-body fields the rules look at. */
  datatype Field = Name | Email | Password

  /**
   * A request body as the validator sees it. A field the client did not
   * send reads as the empty string, which every length rule rejects.
   */
  datatype Body = Body(name: string, email: string, password: string)

  function Value(body: Body, f: Field): string {
    match f
    case Name => body.name
    case Email => body.email
    case Password => body.password
  }

  /** The field's name as express-validator reports it in `param`. */
  function ParamName(f: Field): string {
    match f
    case Name => "name"
    case Email => "email"
    case Password => "password"
  }

  /** One validation chain: `isLength({min, max})` or `isEmail()`. */
  datatype Check =
    | LengthCheck(field: Field, msg: string, min: nat, max: nat)
    | EmailCheck(field: Field, msg: string)

  /** One entry of `errors.array()`: the field, the chain's message and the submitted value. */
  datatype FieldError = FieldError(param: string, msg: string, value: string)

  /** Whether a chain accepts the body; `isEmail` is express-validator's e-mail grammar. */
  predicate Passes(c: Check, isEmail: string -> bool, body: Body) {
    match c
    case LengthCheck(f, _, lo, hi) => lo <= |Value(body, f)| <= hi
    case EmailCheck(f, _) => isEmail(Value(body, f))
  }

  function ErrorFor(c: Check, body: Body): FieldError {
    FieldError(ParamName(c.field), c.msg, Value(body, c.field))
  }

  /**
   * The errors `validationResult` collects, one per failing chain, in the
   * order the chains are listed.
   */
  function Validate(checks: seq<Check>, isEmail: string -> bool, body: Body): (errs: seq<FieldError>)
    ensures |errs| <= |checks|
    ensures errs == [] <==> forall i :: 0 <= i < |checks| ==> Passes(checks[i], isEmail, body)
  {
    if checks == [] then []
    else Reported(checks[0], isEmail, body) + Validate(checks[1..], isEmail, body)
  }

  /**
   * Every reported error belongs to a failing chain, and every failing
   * chain is reported.
   */
  lemma {:induction false} ValidateReportsFailingChecks(checks: seq<Check>, isEmail: string -> bool, body: Body)
    ensures var errs := Validate(checks, isEmail, body);
      && (forall e :: e in errs ==> exists c :: c in checks && !Passes(c, isEmail, body) && e == ErrorFor(c, body))
      && (forall c :: c in checks && !Passes(c, isEmail, body) ==> ErrorFor(c, body) in errs)
  {
    if checks != [] {
      ValidateReportsFailingChecks(checks[1..], isEmail, body);
      assert forall c :: c in checks <==> c == checks[0] || c in checks[1..];
    }
  }

  /** What one chain contributes to the error list. */
  function Reported(c: Check, isEmail: string -> bool, body: Body): seq<FieldError> {
    if Passes(c, isEmail, body) then [] else [ErrorFor(c, body)]
  }

  /** The register chains run one after the other. */
  lemma RegisterChecksInOrder(isEmail: string -> bool, body: Body)
    ensures Validate(RegisterChecks, isEmail, body) ==
      Reported(NameLength, isEmail, body) + Reported(EmailLength, isEmail, body)
      + Reported(EmailFormat, isEmail, body) + Reported(PasswordLength, isEmail, body)
  {
    assert RegisterChecks[1..] == LoginChecks;
    LoginChecksInOrder(isEmail, body);
  }

  /** The login chains run one after the other. */
  lemma LoginChecksInOrder(isEmail: string -> bool, body: Body)
    ensures Validate(LoginChecks, isEmail, body) ==
      Reported(EmailLength, isEmail, body) + Reported(EmailFormat, isEmail, body)
      + Reported(PasswordLength, isEmail, body)
  {
    var a := Reported(EmailLength, isEmail, body);
    var b := Reported(EmailFormat, isEmail, body);
    var c := Reported(PasswordLength, isEmail, body);
    assert LoginChecks[1..] == [EmailFormat, PasswordLength];
    assert [EmailFormat, PasswordLength][1..] == [PasswordLength];
    assert Validate([PasswordLength], isEmail, body) == c + Validate([], isEmail, body);
    assert c + [] == c;
    assert Validate(LoginChecks, isEmail, body) == a + (b + c);
    assert a + (b + c) == a + b + c;
  }

  const NameMessage := "NAME: Min length 6 and max length 255."
  const EmailLengthMessage := "EMAIL: Min length 6 and max length 255."
  const EmailFormatMessage := "EMAIL: Not correct email."
  // The message says 1000, the rule itself allows up to 1024 characters.
  const PasswordMessage := "PASSWORD: Min length 6 and max length 1000."

  const NameLength := LengthCheck(Name, NameMessage, 6, 255)
  const EmailLength := LengthCheck(Email, EmailLengthMessage, 6, 255)
  const EmailFormat := EmailCheck(Email, EmailFormatMessage)
  const PasswordLength := LengthCheck(Password, PasswordMessage, 6, 1024)

  /** The chains of POST /register, in order. */
  const RegisterChecks: seq<Check> := [NameLength, EmailLength, EmailFormat, PasswordLength]

  /** The chains of POST /login, in order: no rule about the name. */
  const LoginChecks: seq<Check> := [EmailLength, EmailFormat, PasswordLength]

  // Reference definitions: the bounds written out field by field.

  predicate NameOk(name: string) {
    6 <= |name| <= 255
  }

  predicate EmailOk(isEmail: string -> bool, email: string) {
    6 <= |email| <= 255 && isEmail(email)
  }

  predicate PasswordOk(password: string) {
    6 <= |password| <= 1024
  }

  predicate RegisterBodyOk(isEmail: string -> bool, body: Body) {
    NameOk(body.name) && EmailOk(isEmail, body.email) && PasswordOk(body.password)
  }

  predicate LoginBodyOk(isEmail: string -> bool, body: Body) {
    EmailOk(isEmail, body.email) && PasswordOk(body.password)
  }

  /** Whether some error in `errs` is about the field named `param`. */
  predicate Flags(errs: seq<FieldError>, param: string) {
    exists e :: e in errs && e.param == param
  }

  /**
   * The register rules accept exactly the bodies within the bounds; each
   * field is reported exactly when its own bounds fail, with the chain's
   * message and the submitted value (for the password, the plaintext).
   */
  lemma RegisterRules(isEmail: string -> bool, body: Body)
    ensures var errs := Validate(RegisterChecks, isEmail, body);
      && (errs == [] <==> RegisterBodyOk(isEmail, body))
      && (Flags(errs, "name") <==> !NameOk(body.name))
      && (Flags(errs, "email") <==> !EmailOk(isEmail, body.email))
      && (Flags(errs, "password") <==> !PasswordOk(body.password))
      && (!NameOk(body.name) ==> FieldError("name", NameMessage, body.name) in errs)
      && (!(6 <= |body.email| <= 255) ==> FieldError("email", EmailLengthMessage, body.email) in errs)
      && (!isEmail(body.email) ==> FieldError("email", EmailFormatMessage, body.email) in errs)
      && (!PasswordOk(body.password) ==> FieldError("password", PasswordMessage, body.password) in errs)
  {
    RegisterChecksInOrder(isEmail, body);
    LoginChecksInOrder(isEmail, body);
    LoginRules(isEmail, body);
    var n := Reported(NameLength, isEmail, body);
    var rest := Validate(LoginChecks, isEmail, body);
    FlagsAppend(n, rest, "name");
    FlagsAppend(n, rest, "email");
    FlagsAppend(n, rest, "password");
  }

  lemma FlagsAppend(a: seq<FieldError>, b: seq<FieldError>, param: string)
    ensures Flags(a + b, param) <==> Flags(a, param) || Flags(b, param)
  {
  }

  /**
   * The login rules accept exactly the bodies whose e-mail and password are
   * within bounds, and never report the name.
   */
  lemma LoginRules(isEmail: string -> bool, body: Body)
    ensures var errs := Validate(LoginChecks, isEmail, body);
      && (errs == [] <==> LoginBodyOk(isEmail, body))
      && !Flags(errs, "name")
      && (Flags(errs, "email") <==> !EmailOk(isEmail, body.email))
      && (Flags(errs, "password") <==> !PasswordOk(body.password))
      && (!(6 <= |body.email| <= 255) ==> FieldError("email", EmailLengthMessage, body.email) in errs)
      && (!isEmail(body.email) ==> FieldError("email", EmailFormatMessage, body.email) in errs)
      && (!PasswordOk(body.password) ==> FieldError("password", PasswordMessage, body.password) in errs)
  {
    LoginChecksInOrder(isEmail, body);
    var a := Reported(EmailLength, isEmail, body);
    var b := Reported(EmailFormat, isEmail, body);
    var c := Reported(PasswordLength, isEmail, body);
    assert Validate(LoginChecks, isEmail, body) == a + b + c;
    assert !Flags(a, "name") && !Flags(b, "name") && !Flags(c, "name");
    assert !Flags(a, "password") && !Flags(b, "password") && !Flags(c, "email");
    assert Flags(a + b, "email") <==> !EmailOk(isEmail, body.email);
  }
}
