/**
  * `patch-user-form.tsx`: the edit form for a user. Its submit handler
  * sends `id` plus exactly the fields that differ from the loaded user,
  * treating an empty phone as `null` and roles as equal when the lengths
  * match and every submitted role is among the loaded ones.
  */
module PatchUserForm {
  import opened Js
  import opened Zod
  import opened EnumSchema
  import opened UsersApi

  /** The form's value. */
  datatype PatchUserValue = PatchUserValue(
    id: string, name: string, email: string, phone: string, roles: seq<string>, status: bool)

  const PayloadKeys: set<string> := {"id", "name", "email", "phone", "roles", "status"}

  /** The form starts from the loaded user, with a `null` phone shown as `''`. */
  function DefaultValues(user: User): (v: PatchUserValue)
    ensures v.id == user.id && v.name == user.name && v.email == user.email
    ensures v.roles == user.roles && v.status == user.status
    ensures user.phone.None? ==> v.phone == ""
    ensures user.phone.Some? ==> v.phone == user.phone.value
  {
    PatchUserValue(user.id, user.name, user.email, user.phone.GetOr(""), user.roles, user.status)
  }

  /** `patchUserSchema`: any name and phone; a valid email; at least one role, each a known one. */
  function Issues(v: PatchUserValue, isEmail: string -> bool): seq<Issue> {
    Check(isEmail(v.email), ["email"], Text("Enter a valid email"))
    + ItemIssues(RoleEnum, ["roles"], v.roles)
    + Check(|v.roles| >= 1, ["roles"], Text("At least one role must be assigned"))
  }

  lemma {:induction false} IssuesEmptyIff(v: PatchUserValue, isEmail: string -> bool)
    ensures Issues(v, isEmail) == [] <==>
      isEmail(v.email) && |v.roles| >= 1 && forall i :: 0 <= i < |v.roles| ==> v.roles[i] in RoleEnum.options
  {
    var a := Check(isEmail(v.email), ["email"], Text("Enter a valid email"));
    var b := ItemIssues(RoleEnum, ["roles"], v.roles);
    var c := Check(|v.roles| >= 1, ["roles"], Text("At least one role must be assigned"));
    NoIssues2(a, b);
    NoIssues2(a + b, c);
  }

  /** `p === '' ? null : p` */
  function NormalizePhone(p: Option<string>): (r: Option<string>)
    ensures r.None? <==> p.None? || p == Some("")
    ensures r.Some? ==> r == p
  {
    if p == Some("") then None else p
  }

  /** Length-plus-membership comparison: every submitted role must be among the loaded ones. */
  predicate RolesEqual(next: seq<string>, prev: seq<string>) {
    |next| == |prev| && forall i :: 0 <= i < |next| ==> next[i] in prev
  }

  /** `key` is in `payload` exactly when `changed`, and then holds `v`. */
  predicate Sent(payload: map<string, Value>, key: string, changed: bool, v: Value) {
    (key in payload <==> changed) && (key in payload ==> payload[key] == v)
  }

  /** The payload the submit handler builds from the loaded user and the submitted value. */
  predicate IsUserPatch(user: User, value: PatchUserValue, payload: map<string, Value>) {
    && payload.Keys <= PayloadKeys
    && "id" in payload && payload["id"] == Str(user.id)
    && Sent(payload, "name", value.name != user.name, Str(value.name))
    && Sent(payload, "email", value.email != user.email, Str(value.email))
    && Sent(payload, "phone", NormalizePhone(Some(value.phone)) != NormalizePhone(user.phone),
            if value.phone == "" then Null else Str(value.phone))
    && Sent(payload, "roles", !RolesEqual(value.roles, user.roles), Arr(Strs(value.roles)))
    && Sent(payload, "status", value.status != user.status, Bool(value.status))
  }

  /** `onSubmit`: start from `{ id }` and add each changed field in turn. */
  method OnSubmit(user: User, value: PatchUserValue) returns (updatedFields: map<string, Value>)
    ensures IsUserPatch(user, value, updatedFields)
  {
    updatedFields := map["id" := Str(user.id)];
    if value.name != user.name {
      updatedFields := updatedFields["name" := Str(value.name)];
    }
    if value.email != user.email {
      updatedFields := updatedFields["email" := Str(value.email)];
    }
    var nextPhone := NormalizePhone(Some(value.phone));
    var prevPhone := NormalizePhone(user.phone);
    if nextPhone != prevPhone {
      updatedFields := updatedFields["phone" := if nextPhone.None? then Null else Str(nextPhone.value)];
    }
    var rolesEqual := |value.roles| == |user.roles| && forall i :: 0 <= i < |value.roles| ==> value.roles[i] in user.roles;
    assert rolesEqual == RolesEqual(value.roles, user.roles);
    if !rolesEqual {
      updatedFields := updatedFields["roles" := Arr(Strs(value.roles))];
    }
    if value.status != user.status {
      updatedFields := updatedFields["status" := Bool(value.status)];
    }
  }

  /** `phone` is sent exactly when the normalised phones differ. */
  lemma PhoneSentIff(user: User, value: PatchUserValue, payload: map<string, Value>)
    requires IsUserPatch(user, value, payload)
    ensures "phone" in payload <==>
      if value.phone == "" then user.phone.Some? && user.phone.value != ""
      else user.phone != Some(value.phone)
  {
  }

  /** Submitting the form untouched sends only the id. */
  lemma UntouchedSendsOnlyId(user: User, payload: map<string, Value>)
    requires IsUserPatch(user, DefaultValues(user), payload)
    ensures payload == map["id" := Str(user.id)]
  {
    var value := DefaultValues(user);
    assert RolesEqual(value.roles, user.roles);
    assert payload.Keys == {"id"};
  }

  /** Clearing a non-empty phone sends `phone: null`. */
  lemma ClearedPhoneSendsNull(user: User, value: PatchUserValue, payload: map<string, Value>)
    requires IsUserPatch(user, value, payload)
    requires user.phone.Some? && user.phone.value != "" && value.phone == ""
    ensures "phone" in payload && payload["phone"] == Null
  {
  }

  /** A user without a phone whose field stays empty sends no `phone`. */
  lemma EmptyPhoneUnchanged(user: User, value: PatchUserValue, payload: map<string, Value>)
    requires IsUserPatch(user, value, payload)
    requires user.phone.None? && value.phone == ""
    ensures "phone" !in payload
  {
  }

  /** Reordering the roles sends no `roles`. */
  lemma ReorderedRolesNotSent(user: User, value: PatchUserValue, payload: map<string, Value>)
    requires IsUserPatch(user, value, payload)
    requires multiset(value.roles) == multiset(user.roles)
    ensures "roles" !in payload
  {
    assert |value.roles| == |multiset(value.roles)| == |multiset(user.roles)| == |user.roles|;
    forall i | 0 <= i < |value.roles|
      ensures value.roles[i] in user.roles
    {
      assert value.roles[i] in multiset(value.roles);
    }
  }

  /** A submitted role that the user lacks, or a different count, sends the full list. */
  lemma ChangedRolesSent(user: User, value: PatchUserValue, payload: map<string, Value>, i: nat)
    requires IsUserPatch(user, value, payload)
    requires |value.roles| != |user.roles| || (i < |value.roles| && value.roles[i] !in user.roles)
    ensures "roles" in payload && payload["roles"] == Arr(Strs(value.roles))
  {
  }

  /**
    * The comparison is one-directional: `[ADMIN, ADMIN]` against a user
    * with `[ADMIN, STAFF]` counts as unchanged, so STAFF is not removed.
    */
  lemma DuplicateRolesHideRemoval(user: User, value: PatchUserValue, payload: map<string, Value>)
    requires IsUserPatch(user, value, payload)
    requires user.roles == ["ADMIN", "STAFF"] && value.roles == ["ADMIN", "ADMIN"]
    ensures "roles" !in payload
    ensures Elements(value.roles) != Elements(user.roles)
  {
    assert "STAFF" !in value.roles;
    assert "STAFF" in Elements(user.roles) && "STAFF" !in Elements(value.roles);
  }

  /** Any name passes validation, even an empty one; an empty role list does not. */
  lemma NameFreeRolesRequired(v: PatchUserValue, isEmail: string -> bool)
    requires isEmail(v.email) && v.roles == ["STAFF"]
    ensures Issues(v.(name := ""), isEmail) == []
    ensures Issues(v.(roles := []), isEmail) != []
  {
    IssuesEmptyIff(v.(name := ""), isEmail);
    IssuesEmptyIff(v.(roles := []), isEmail);
  }

  /** TanStack Form calls the submit handler only when the schema reports nothing. */
  method Submit(user: User, value: PatchUserValue, isEmail: string -> bool) returns (sent: Option<map<string, Value>>)
    ensures sent.Some? <==> Issues(value, isEmail) == []
    ensures sent.Some? ==> IsUserPatch(user, value, sent.value)
  {
    if Issues(value, isEmail) == [] {
      var payload := OnSubmit(user, value);
      sent := Some(payload);
    } else {
      sent := None;
    }
  }
}
