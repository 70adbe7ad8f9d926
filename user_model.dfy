/** The `User` model: a registered user and the schema that gates its
    storage (required paths, a unique numeric id). */
module UserSchema {
  import opened Wrappers
  import opened Schema

  /** A user document before validation: every path may be absent. The
      birthday is kept as the text the caller sent; turning it into a date
      is not modelled. */
  datatype UserDraft = UserDraft(
    id: Option<int>,
    firstName: Option<string>,
    lastName: Option<string>,
    birthday: Option<string>,
    maritalStatus: Option<string>)

  /** A stored user. */
  datatype User = User(
    id: int,
    firstName: string,
    lastName: string,
    birthday: string,
    maritalStatus: string)

  /** What the schema demands of one stored user. */
  predicate Valid(u: User)
  {
    u.firstName != "" && u.lastName != "" && u.birthday != "" && u.maritalStatus != ""
  }

  /** The `unique: true` index on `id`: no two stored users share an id. */
  predicate DistinctIds(us: seq<User>)
  {
    forall i, j :: 0 <= i < j < |us| ==> us[i].id != us[j].id
  }

  /** The document a stored user came from, every path present. */
  function Draft(u: User): UserDraft
  {
    UserDraft(Some(u.id), Some(u.firstName), Some(u.lastName), Some(u.birthday), Some(u.maritalStatus))
  }

  /** Every validation error of a draft, in the schema's path order. */
  function Errors(d: UserDraft): (errs: seq<FieldError>)
    ensures errs == [] <==>
      d.id.Some? && RequiredText(d.firstName) && RequiredText(d.lastName)
      && RequiredText(d.birthday) && RequiredText(d.maritalStatus)
    ensures Required("id") in errs <==> d.id.None?
    ensures Required("first_name") in errs <==> !RequiredText(d.firstName)
    ensures Required("last_name") in errs <==> !RequiredText(d.lastName)
    ensures Required("birthday") in errs <==> !RequiredText(d.birthday)
    ensures Required("marital_status") in errs <==> !RequiredText(d.maritalStatus)
    ensures forall e :: e in errs ==> e.Required?
  {
    CheckNumber("id", d.id)
    + CheckText("first_name", d.firstName)
    + CheckText("last_name", d.lastName)
    + CheckText("birthday", d.birthday)
    + CheckText("marital_status", d.maritalStatus)
  }

  /** Validation as `save` runs it: a draft with any error is refused with
      the whole error list, otherwise it becomes a stored user verbatim. */
  function Validate(d: UserDraft): (r: Result<User, seq<FieldError>>)
    ensures r.Ok? <==> Errors(d) == []
    ensures r.Err? ==> r.error == Errors(d) && r.error != []
    ensures r.Ok? ==> Valid(r.value) && Draft(r.value) == d
  {
    if Errors(d) != [] then Err(Errors(d))
    else Ok(User(d.id.value, d.firstName.value, d.lastName.value, d.birthday.value, d.maritalStatus.value))
  }

  /** A stored user passes validation unchanged exactly when it is valid. */
  lemma ValidateDraft(u: User)
    ensures Validate(Draft(u)) == Ok(u) <==> Valid(u)
  {
  }
}
