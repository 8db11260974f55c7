/** `create-user-form.tsx`: the form that creates a user. */
module CreateUserForm {
  import opened Js
  import opened Zod
  import opened EnumSchema

  datatype CreateUserValue = CreateUserValue(
    name: string, email: string, password: string, phone: string, roles: seq<string>, status: bool)

  /** Empty fields, no roles, active. */
  const DefaultValues := CreateUserValue("", "", "", "", [], true)

  const NameMessage := Text("Enter a valid name")
  const PasswordShortMessage := Text("Password must be at least 8 characters")
  const PasswordLongMessage := Text("Password must be less than 50 characters")
  const RolesMessage := Text("At least one role must be assigned")

  /** `createUserSchema`, field by field in declaration order. */
  function Issues(v: CreateUserValue, isEmail: string -> bool): seq<Issue> {
    Check(|v.name| >= 1, ["name"], NameMessage)
    + Check(isEmail(v.email), ["email"], Text("Enter a valid email"))
    + Check(|v.password| >= 8, ["password"], PasswordShortMessage)
    + Check(|v.password| <= 50, ["password"], PasswordLongMessage)
    + ItemIssues(RoleEnum, ["roles"], v.roles)
    + Check(|v.roles| >= 1, ["roles"], RolesMessage)
  }

  /** The schema accepts exactly: a non-empty name, a valid email, 8 to 50 password characters, known roles, at least one. */
  lemma {:induction false} IssuesEmptyIff(v: CreateUserValue, isEmail: string -> bool)
    ensures Issues(v, isEmail) == [] <==>
      && |v.name| >= 1 && isEmail(v.email) && 8 <= |v.password| <= 50
      && |v.roles| >= 1 && forall i :: 0 <= i < |v.roles| ==> v.roles[i] in RoleEnum.options
  {
    var a := Check(|v.name| >= 1, ["name"], NameMessage);
    var b := Check(isEmail(v.email), ["email"], Text("Enter a valid email"));
    var c := Check(|v.password| >= 8, ["password"], PasswordShortMessage);
    var d := Check(|v.password| <= 50, ["password"], PasswordLongMessage);
    var e := ItemIssues(RoleEnum, ["roles"], v.roles);
    var f := Check(|v.roles| >= 1, ["roles"], RolesMessage);
    NoIssues2(a, b);
    NoIssues2(a + b, c);
    NoIssues2(a + b + c, d);
    NoIssues2(a + b + c + d, e);
    NoIssues2(a + b + c + d + e, f);
  }

  /** The starting value is rejected for its name, its password and its roles. */
  lemma DefaultsRejected(isEmail: string -> bool)
    ensures Issue(["name"], NameMessage) in Issues(DefaultValues, isEmail)
    ensures Issue(["password"], PasswordShortMessage) in Issues(DefaultValues, isEmail)
    ensures Issue(["roles"], RolesMessage) in Issues(DefaultValues, isEmail)
  {
  }

  /** The password bounds are inclusive. */
  lemma PasswordBoundsInclusive(v: CreateUserValue, isEmail: string -> bool)
    requires |v.name| >= 1 && isEmail(v.email) && v.roles == ["ADMIN"]
    requires |v.password| == 8 || |v.password| == 50
    ensures Issues(v, isEmail) == []
  {
    IssuesEmptyIff(v, isEmail);
  }

  /** The submit handler runs only on a valid value and forwards it unchanged to `postUsers`. */
  function Submit(v: CreateUserValue, isEmail: string -> bool): (sent: Option<CreateUserValue>)
    ensures sent.Some? <==>
      && |v.name| >= 1 && isEmail(v.email) && 8 <= |v.password| <= 50
      && |v.roles| >= 1 && forall i :: 0 <= i < |v.roles| ==> v.roles[i] in ["ADMIN", "STAFF", "INSTRUCTOR"]
    ensures sent.Some? ==> sent.value == v
  {
    IssuesEmptyIff(v, isEmail);
    if Issues(v, isEmail) == [] then Some(v) else None
  }

  /** Selecting a role option flips that role's membership in the set of roles. */
  method ToggleRole(roles: seq<string>, role: string) returns (next: seq<string>)
    ensures next == Toggle(roles, role)
    ensures NoDup(next)
    ensures forall r :: r in next <==> (r in roles <==> r != role)
  {
    var selectedValues := SetOf(roles);
    SetOfNoDup(selectedValues);
    if role in selectedValues {
      selectedValues := Delete(selectedValues, role);
    } else {
      selectedValues := selectedValues + [role];
    }
    next := selectedValues;
  }

  /** Selecting a role twice gives back the same set of roles. */
  lemma ToggleRoleTwice(roles: seq<string>, role: string)
    ensures Elements(Toggle(Toggle(roles, role), role)) == Elements(roles)
  {
    ToggleTwice(roles, role);
  }

  /** "Clear selections" empties the roles, and the form cannot be submitted. */
  lemma ClearedRolesBlockSubmit(v: CreateUserValue, isEmail: string -> bool)
    ensures Submit(v.(roles := []), isEmail).None?
  {
  }
}
