// The request-body schemas for the account endpoints, as the list of
// issues each produces on a body. An absent field is None (a present empty
// string is not absent here). The schema library's email pattern is a
// parameter `isEmail`.

module Schemas {
  import opened Wrappers
  import opened Validate

  const REQUIRED_MESSAGE: string := "Required"
  const DEFAULT_MIN2_MESSAGE: string := "String must contain at least 2 character(s)"

  /** An issue on a body field. */
  function BodyIssue(field: string, message: string): (r: Issue)
    ensures r.path == [Key("body"), Key(field)] && r.message == message
  {
    Issue([Key("body"), Key(field)], message)
  }

  /** `z.string().min(n, message)` on a required field. */
  function MinLength(field: string, value: Option<string>, n: nat, message: string): (r: seq<Issue>)
    ensures r == [] <==> value.Some? && |value.value| >= n
    ensures |r| <= 1
  {
    if value.None? then [BodyIssue(field, REQUIRED_MESSAGE)]
    else if |value.value| < n then [BodyIssue(field, message)]
    else []
  }

  /** `z.string().email(message)` on a required field. */
  function EmailField(field: string, value: Option<string>, isEmail: string -> bool, message: string): (r: seq<Issue>)
    ensures r == [] <==> value.Some? && isEmail(value.value)
    ensures |r| <= 1
  {
    if value.None? then [BodyIssue(field, REQUIRED_MESSAGE)]
    else if !isEmail(value.value) then [BodyIssue(field, message)]
    else []
  }

  /** `z.string().min(n).optional()`: absent is fine, present must be long enough. */
  function OptionalMinLength(field: string, value: Option<string>, n: nat): (r: seq<Issue>)
    ensures r == [] <==> value.None? || |value.value| >= n
  {
    if value.Some? && |value.value| < n then [BodyIssue(field, DEFAULT_MIN2_MESSAGE)] else []
  }

  /** A parse with no issues accepts; otherwise it fails with all of them. */
  function VerdictOf(issues: seq<Issue>): (r: Verdict)
    ensures r.Accepted? <==> issues == []
    ensures r.SchemaFailure? ==> r.issues == issues
    ensures !r.OtherFailure?
  {
    if issues == [] then Accepted else SchemaFailure(issues)
  }

  datatype RegisterBody = RegisterBody(firstName: Option<string>, lastName: Option<string>,
                                       email: Option<string>, password: Option<string>)

  /** `registerSchema`: the issues in the order of the fields. */
  function RegisterIssues(b: RegisterBody, isEmail: string -> bool): (r: seq<Issue>)
  {
    MinLength("firstName", b.firstName, 2, "First name too short")
    + MinLength("lastName", b.lastName, 2, "Last name too short")
    + EmailField("email", b.email, isEmail, "Invalid email address")
    + MinLength("password", b.password, 6, "Password must be at least 6 characters")
  }

  /** The register schema accepts exactly: both names of at least 2
      characters, an email the pattern accepts, a password of at least 6. */
  lemma RegisterAcceptsIff(b: RegisterBody, isEmail: string -> bool)
    ensures RegisterIssues(b, isEmail) == [] <==>
      && b.firstName.Some? && |b.firstName.value| >= 2
      && b.lastName.Some? && |b.lastName.value| >= 2
      && b.email.Some? && isEmail(b.email.value)
      && b.password.Some? && |b.password.value| >= 6
  {
  }

  datatype LoginBody = LoginBody(email: Option<string>, password: Option<string>)

  /** `loginSchema`. */
  function LoginIssues(b: LoginBody, isEmail: string -> bool): (r: seq<Issue>)
    ensures r == [] <==> b.email.Some? && isEmail(b.email.value) && b.password.Some? && b.password.value != ""
  {
    EmailField("email", b.email, isEmail, "Invalid email address")
    + MinLength("password", b.password, 1, "Password is required")
  }

  /** `updateProfileSchema`: phone and address are optional strings and
      never produce an issue on a body of strings, so only the names count. */
  datatype ProfileBody = ProfileBody(firstName: Option<string>, lastName: Option<string>)

  function UpdateProfileIssues(b: ProfileBody): (r: seq<Issue>)
    ensures r == [] <==>
      (b.firstName.None? || |b.firstName.value| >= 2) && (b.lastName.None? || |b.lastName.value| >= 2)
  {
    OptionalMinLength("firstName", b.firstName, 2) + OptionalMinLength("lastName", b.lastName, 2)
  }

  /** Every field of the profile schema is optional: the empty body passes. */
  lemma EmptyProfileAccepted()
    ensures UpdateProfileIssues(ProfileBody(None, None)) == []
  {
  }

  datatype PasswordBody = PasswordBody(currentPassword: Option<string>, newPassword: Option<string>)

  /** `changePasswordSchema`. */
  function ChangePasswordIssues(b: PasswordBody): (r: seq<Issue>)
    ensures r == [] <==>
      b.currentPassword.Some? && b.currentPassword.value != "" && b.newPassword.Some? && |b.newPassword.value| >= 6
  {
    MinLength("currentPassword", b.currentPassword, 1, "Current password is required")
    + MinLength("newPassword", b.newPassword, 6, "New password must be at least 6 characters")
  }

  /** The five registration cases of the schema's test script. The email
      pattern is only assumed to accept the two well-formed addresses and
      to refuse "not-an-email". */
  lemma RegistrationTestCases(isEmail: string -> bool)
    requires isEmail("alice@example.com") && isEmail("dave@example.com") && isEmail("eve@example.com")
    requires !isEmail("not-an-email")
    ensures VerdictOf(RegisterIssues(RegisterBody(Some("Alice"), Some("Smith"), Some("alice@example.com"),
                                                  Some("password123")), isEmail)).Accepted?
    ensures VerdictOf(RegisterIssues(RegisterBody(Some("Bob"), Some("Smith"), None,
                                                  Some("password123")), isEmail)).SchemaFailure?
    ensures VerdictOf(RegisterIssues(RegisterBody(Some("Charlie"), Some("Brown"), Some("not-an-email"),
                                                  Some("password123")), isEmail)).SchemaFailure?
    ensures VerdictOf(RegisterIssues(RegisterBody(Some("Dave"), Some("Jones"), Some("dave@example.com"),
                                                  Some("123")), isEmail)).SchemaFailure?
    ensures VerdictOf(RegisterIssues(RegisterBody(None, None, Some("eve@example.com"),
                                                  Some("password123")), isEmail)).SchemaFailure?
  {
    RegisterAcceptsIff(RegisterBody(Some("Alice"), Some("Smith"), Some("alice@example.com"), Some("password123")), isEmail);
  }

  /** With both names missing, the validation middleware reports both
      fields, each as "Required". */
  lemma MissingNamesErrorMap(isEmail: string -> bool)
    requires isEmail("eve@example.com")
    ensures ErrorsOf(RegisterIssues(RegisterBody(None, None, Some("eve@example.com"), Some("password123")), isEmail))
         == map["firstName" := REQUIRED_MESSAGE, "lastName" := REQUIRED_MESSAGE]
  {
    var issues := RegisterIssues(RegisterBody(None, None, Some("eve@example.com"), Some("password123")), isEmail);
    assert issues == [BodyIssue("firstName", REQUIRED_MESSAGE), BodyIssue("lastName", REQUIRED_MESSAGE)];
    assert issues[..1] == [issues[0]];
    assert issues[..1][..0] == [];
    assert FieldOf(issues[0]) == "firstName";
    assert FieldOf(issues[1]) == "lastName";
    assert ErrorsOf(issues[..1]) == map["firstName" := REQUIRED_MESSAGE];
  }
}
