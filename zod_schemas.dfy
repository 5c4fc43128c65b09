/** The login and registration schemas: per-field length and format checks, and the
    password confirmation check. Parsing reports every failed check as an issue and accepts
    the input only when there is none. */
module ZodSchemas {
  import opened Common

  /** A reported problem: the field it is attached to and its message. */
  datatype Issue = Issue(path: string, message: string)

  /** One check of a string field. */
  datatype Check = MinLength(n: nat, message: string) | MaxLength(n: nat, message: string) | IsEmail(message: string)

  /** `isEmail` is the email format test of `.email()`. */
  predicate Passes(c: Check, s: string, isEmail: string -> bool) {
    match c
    case MinLength(n, _) => |s| >= n
    case MaxLength(n, _) => |s| <= n
    case IsEmail(_) => isEmail(s)
  }

  /** The issues of the checks on a present string, in the order the checks are declared;
      every check runs, whether or not an earlier one failed. */
  function CheckIssues(path: string, s: string, checks: seq<Check>, isEmail: string -> bool): (r: seq<Issue>)
    ensures r == [] <==> forall i :: 0 <= i < |checks| ==> Passes(checks[i], s, isEmail)
    ensures |r| <= |checks|
    ensures forall i :: 0 <= i < |checks| && !Passes(checks[i], s, isEmail) ==> Issue(path, checks[i].message) in r
    ensures forall i :: 0 <= i < |r| ==> r[i].path == path
  {
    if checks == [] then []
    else
      var rest := CheckIssues(path, s, checks[1..], isEmail);
      assert forall i :: 1 <= i < |checks| ==> checks[i] == checks[1..][i - 1];
      if Passes(checks[0], s, isEmail) then rest else [Issue(path, checks[0].message)] + rest
  }

  /** The issues of one string field: a missing value reports only that it is required. */
  function FieldIssues(path: string, value: Option<string>, required: string, checks: seq<Check>, isEmail: string -> bool): (r: seq<Issue>)
    ensures value.None? ==> r == [Issue(path, required)]
    ensures value.Some? ==> r == CheckIssues(path, value.value, checks, isEmail)
    ensures forall i :: 0 <= i < |r| ==> r[i].path == path
    ensures |r| <= if |checks| == 0 then 1 else |checks|
  {
    if value.None? then [Issue(path, required)] else CheckIssues(path, value.value, checks, isEmail)
  }

  const EmailChecks := [MinLength(5, "Email must be at least 5 characters"), IsEmail("Please enter a valid email")]
  const PasswordChecks := [MinLength(8, "Password must be at least 8 characters"), MaxLength(32, "Password must be at most 32 characters")]
  const UsernameChecks := [MinLength(5, "Username must be at least 5 characters"), MaxLength(32, "Username must be at most 32 characters")]
  const ConfirmChecks := [MinLength(8, "Confirm Password must be at least 8 characters"), MaxLength(32, "Confirm Password must be at most 32 characters")]

  /** A login form; a missing field is None. */
  datatype LoginInput = LoginInput(email: Option<string>, password: Option<string>)

  /** `loginSchema`: the issues of its fields, in declaration order. */
  function LoginIssues(input: LoginInput, isEmail: string -> bool): (r: seq<Issue>)
    ensures |r| <= 4
    ensures forall i :: 0 <= i < |r| ==> r[i].path == "email" || r[i].path == "password"
    // the issues of the email come before those of the password
    ensures forall i, j :: 0 <= i < j < |r| && r[j].path == "email" ==> r[i].path == "email"
    ensures input.email.None? ==> Issue("email", "Email is required") in r
    ensures input.password.None? ==> Issue("password", "Password is required") in r
  {
    FieldIssues("email", input.email, "Email is required", EmailChecks, isEmail)
    + FieldIssues("password", input.password, "Password is required", PasswordChecks, isEmail)
  }

  /** The login schema accepts exactly an email of at least 5 characters in email format and
      a password of 8 to 32 characters. */
  lemma LoginAccepts(input: LoginInput, isEmail: string -> bool)
    ensures LoginIssues(input, isEmail) == [] <==>
      && input.email.Some? && |input.email.value| >= 5 && isEmail(input.email.value)
      && input.password.Some? && 8 <= |input.password.value| <= 32
  {
    TwoChecks("email", input.email, "Email is required", EmailChecks, isEmail);
    TwoChecks("password", input.password, "Password is required", PasswordChecks, isEmail);
  }

  /** A field with two checks has no issue exactly when it is present and passes both. */
  lemma TwoChecks(path: string, value: Option<string>, required: string, checks: seq<Check>, isEmail: string -> bool)
    requires |checks| == 2
    ensures FieldIssues(path, value, required, checks, isEmail) == [] <==>
      value.Some? && Passes(checks[0], value.value, isEmail) && Passes(checks[1], value.value, isEmail)
  {
  }

  datatype RegisterInput = RegisterInput(
    username: Option<string>,
    email: Option<string>,
    password: Option<string>,
    confirmPassword: Option<string>)

  /** The issues of the four fields of `registerSchema`, in declaration order. */
  function RegisterFieldIssues(input: RegisterInput, isEmail: string -> bool): seq<Issue> {
    FieldIssues("username", input.username, "Username is required", UsernameChecks, isEmail)
    + FieldIssues("email", input.email, "Email is required", EmailChecks, isEmail)
    + FieldIssues("password", input.password, "Password is required", PasswordChecks, isEmail)
    + FieldIssues("confirmPassword", input.confirmPassword, "Confirm Password is required", ConfirmChecks, isEmail)
  }

  /** `registerSchema`: the field issues, then the refinement. The refinement runs whenever
      all four fields are strings, even when their checks failed, and reports a mismatch at
      `confirmPassword`. */
  function RegisterIssues(input: RegisterInput, isEmail: string -> bool): (r: seq<Issue>)
    ensures |r| <= 9
    ensures forall i :: 0 <= i < |r| ==>
      r[i].path in ["username", "email", "password", "confirmPassword"]
    ensures RegisterFieldIssues(input, isEmail) <= r
    ensures |r| <= |RegisterFieldIssues(input, isEmail)| + 1
  {
    var fields := RegisterFieldIssues(input, isEmail);
    var present := input.username.Some? && input.email.Some? && input.password.Some? && input.confirmPassword.Some?;
    if present && input.password.value != input.confirmPassword.value then
      fields + [Issue("confirmPassword", "Passwords do not match")]
    else fields
  }

  /** The registration schema accepts exactly a username of 5 to 32 characters, an email of
      at least 5 characters in email format, and two equal passwords of 8 to 32 characters. */
  lemma RegisterAccepts(input: RegisterInput, isEmail: string -> bool)
    ensures RegisterIssues(input, isEmail) == [] <==>
      && input.username.Some? && 5 <= |input.username.value| <= 32
      && input.email.Some? && |input.email.value| >= 5 && isEmail(input.email.value)
      && input.password.Some? && 8 <= |input.password.value| <= 32
      && input.confirmPassword.Some? && input.confirmPassword.value == input.password.value
  {
    TwoChecks("username", input.username, "Username is required", UsernameChecks, isEmail);
    TwoChecks("email", input.email, "Email is required", EmailChecks, isEmail);
    TwoChecks("password", input.password, "Password is required", PasswordChecks, isEmail);
    TwoChecks("confirmPassword", input.confirmPassword, "Confirm Password is required", ConfirmChecks, isEmail);
  }

  /** Two different passwords are always reported at `confirmPassword`, whatever else is
      wrong with the form; a missing field stops the refinement. */
  lemma MismatchReported(input: RegisterInput, isEmail: string -> bool)
    ensures (input.username.Some? && input.email.Some? && input.password.Some? && input.confirmPassword.Some?
             && input.password.value != input.confirmPassword.value) ==>
      Issue("confirmPassword", "Passwords do not match") in RegisterIssues(input, isEmail)
    ensures input.password.None? || input.confirmPassword.None? ==>
      Issue("confirmPassword", "Passwords do not match") !in RegisterIssues(input, isEmail)
  {
    var fields := RegisterFieldIssues(input, isEmail);
    var r := RegisterIssues(input, isEmail);
    if input.password.Some? && input.confirmPassword.Some? && input.username.Some? && input.email.Some?
       && input.password.value != input.confirmPassword.value {
      assert r[|r| - 1] == Issue("confirmPassword", "Passwords do not match");
    }
    if input.password.None? || input.confirmPassword.None? {
      assert r == fields;
      CheckMessagesDiffer(input, isEmail);
    }
  }

  /** No field check has the mismatch message. */
  lemma CheckMessagesDiffer(input: RegisterInput, isEmail: string -> bool)
    ensures Issue("confirmPassword", "Passwords do not match") !in RegisterFieldIssues(input, isEmail)
  {
    var m := "Passwords do not match";
    var u := FieldIssues("username", input.username, "Username is required", UsernameChecks, isEmail);
    var e := FieldIssues("email", input.email, "Email is required", EmailChecks, isEmail);
    var p := FieldIssues("password", input.password, "Password is required", PasswordChecks, isEmail);
    var c := FieldIssues("confirmPassword", input.confirmPassword, "Confirm Password is required", ConfirmChecks, isEmail);
    assert Issue("confirmPassword", m) !in u && Issue("confirmPassword", m) !in e && Issue("confirmPassword", m) !in p;
    assert Issue("confirmPassword", m) !in c by {
      if input.confirmPassword.Some? {
        ConfirmMessages(input.confirmPassword.value, isEmail);
      }
    }
    assert RegisterFieldIssues(input, isEmail) == u + e + p + c;
  }

  lemma ConfirmMessages(s: string, isEmail: string -> bool)
    ensures forall i :: 0 <= i < |CheckIssues("confirmPassword", s, ConfirmChecks, isEmail)| ==>
      CheckIssues("confirmPassword", s, ConfirmChecks, isEmail)[i].message != "Passwords do not match"
  {
    assert ConfirmChecks[1..] == [MaxLength(32, "Confirm Password must be at most 32 characters")];
    assert ConfirmChecks[1..][1..] == [];
    assert |"Confirm Password must be at least 8 characters"| != |"Passwords do not match"|;
    assert |"Confirm Password must be at most 32 characters"| != |"Passwords do not match"|;
  }
}
