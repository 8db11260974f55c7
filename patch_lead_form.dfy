/**
  * `patch-lead-form.tsx`: despite its name, an edit form for a user. Its
  * schema, default values and submit handler repeat the user patch form's;
  * it adds a role picker that flips one role per selection and can clear them.
  */
module PatchLeadForm {
  import opened Js
  import opened Zod
  import opened EnumSchema
  import opened UsersApi
  import opened PatchUserForm
  import CreateUserForm

  /** `onSubmit`: the same diff as the user patch form, sent with `patchUser`. */
  method OnSubmit(user: User, value: PatchUserValue) returns (updatedFields: map<string, Value>)
    ensures IsUserPatch(user, value, updatedFields)
    ensures "id" in updatedFields && updatedFields["id"] == Str(user.id)
  {
    updatedFields := PatchUserForm.OnSubmit(user, value);
  }

  /** Selecting a role option: the same `onSelect` handler as the create-user form's role picker. */
  method ToggleRole(roles: seq<string>, role: string) returns (next: seq<string>)
    ensures next == Toggle(roles, role)
    ensures NoDup(next)
    ensures forall r :: r in next <==> (r in roles <==> r != role)
  {
    next := CreateUserForm.ToggleRole(roles, role);
  }

  /** Deselecting the only role leaves a value the schema rejects with its roles message. */
  lemma DeselectLastRoleRejected(v: PatchUserValue, isEmail: string -> bool, role: string)
    requires v.roles == [role]
    ensures Toggle(v.roles, role) == []
    ensures Issue(["roles"], Text("At least one role must be assigned")) in Issues(v.(roles := Toggle(v.roles, role)), isEmail)
  {
    assert SetOf([role]) == [role] by {
      SetOfNoDup([role]);
    }
    assert Delete([role], role) == Delete([], role) == [];
  }

  /** "Clear selections" sets the roles to `[]`, which the schema rejects. */
  lemma ClearedRolesRejected(v: PatchUserValue, isEmail: string -> bool)
    ensures Issue(["roles"], Text("At least one role must be assigned")) in Issues(v.(roles := []), isEmail)
  {
  }
}
