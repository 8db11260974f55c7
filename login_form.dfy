/**
  * `login-form.tsx`: the sign-in form. Its schema is attached as the
  * change validator, which TanStack Form also runs on submit, so a value
  * reaches `login` only when the schema accepts it.
  */
module LoginForm {
  import opened Js
  import opened Zod

  datatype LoginValue = LoginValue(email: string, password: string)

  const DefaultValues := LoginValue("", "")

  const PasswordShortMessage := Text("Password must be at least 8 characters")
  const PasswordLongMessage := Text("Password must be less than 50 characters")

  /** `loginSchema` */
  function Issues(v: LoginValue, isEmail: string -> bool): seq<Issue> {
    Check(isEmail(v.email), ["email"], Text("Enter a valid email"))
    + Check(|v.password| >= 8, ["password"], PasswordShortMessage)
    + Check(|v.password| <= 50, ["password"], PasswordLongMessage)
  }

  lemma IssuesEmptyIff(v: LoginValue, isEmail: string -> bool)
    ensures Issues(v, isEmail) == [] <==> isEmail(v.email) && 8 <= |v.password| <= 50
  {
    var a := Check(isEmail(v.email), ["email"], Text("Enter a valid email"));
    var b := Check(|v.password| >= 8, ["password"], PasswordShortMessage);
    var c := Check(|v.password| <= 50, ["password"], PasswordLongMessage);
    NoIssues2(a, b);
    NoIssues2(a + b, c);
  }

  /** The empty starting value is rejected for its password whatever the email check says. */
  lemma DefaultsRejected(isEmail: string -> bool)
    ensures Issue(["password"], PasswordShortMessage) in Issues(DefaultValues, isEmail)
  {
  }

  /** A password of 51 characters reports the upper bound, not the lower one. */
  lemma LongPasswordMessage(v: LoginValue, isEmail: string -> bool)
    requires isEmail(v.email) && |v.password| == 51
    ensures Issues(v, isEmail) == [Issue(["password"], PasswordLongMessage)]
  {
  }

  /** `{ email, password }` goes to `login` unchanged, and only when valid. */
  function Submit(v: LoginValue, isEmail: string -> bool): (sent: Option<LoginValue>)
    ensures sent.Some? <==> isEmail(v.email) && 8 <= |v.password| <= 50
    ensures sent.Some? ==> sent.value == v
  {
    IssuesEmptyIff(v, isEmail);
    if Issues(v, isEmail) == [] then Some(v) else None
  }
}
