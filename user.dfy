/**
 * The entity records of the IAM client (Organization, Project, User) and
 * the User's derived role, credentials and display names.
 */
module Users {
  import opened Wrappers
  import opened Php

  /** An organization: its `_id` and its `type` (`primary` or `secondary`). */
  datatype Organization = Organization(id: Option<string>, kind: Option<string>)

  /** A project; only usable here as a team's parent. */
  datatype Project = Project(id: Option<string>, name: Option<string>, organization: Option<Organization>)

  /**
   * A user. `id` is the user's `_id` property; `password` is the dynamic
   * property `getPassword` reads.
   */
  datatype User = User(
    id: Option<string>,
    firstName: Option<string>,
    lastName: Option<string>,
    gender: Option<string>,
    email: Option<string>,
    password: Option<string>,
    organization: Option<Organization>)

  /** `$organization->_id`, reading `null` through an unset organization. */
  function OrganizationId(o: Option<Organization>): (r: Option<string>) {
    if o.Some? then o.value.id else None
  }

  /** `$organization->type`, reading `null` through an unset organization. */
  function OrganizationKind(o: Option<Organization>): (r: Option<string>) {
    if o.Some? then o.value.kind else None
  }

  /** `type === 'primary'` on an organization that is set. */
  predicate IsPrimary(o: Option<Organization>) {
    o.Some? && o.value.kind == Some("primary")
  }

  /** The login name: the e-mail address when it is set. */
  function GetUsername(u: User): (r: Option<string>)
    ensures r.Some? <==> u.email.Some?
    ensures r.Some? ==> r.value == u.email.value
  {
    if u.email.Some? then u.email else None
  }

  /** The password when it is set. */
  function GetPassword(u: User): (r: Option<string>)
    ensures r.Some? <==> u.password.Some?
    ensures r.Some? ==> r.value == u.password.value
  {
    if u.password.Some? then u.password else None
  }

  /** The authorization group, derived from the organization's type. */
  function GetRole(u: User): (r: Option<string>)
    ensures r == Some("admin") <==> IsPrimary(u.organization)
    ensures r != Some("admin") ==> r == None
  {
    if u.organization.Some? && u.organization.value.kind == Some("primary") then Some("admin") else None
  }

  /** `getRole() === $role`. */
  function HasRole(u: User, role: Option<string>): (r: bool)
    ensures r <==> (role == Some("admin") && IsPrimary(u.organization)) || (role == None && !IsPrimary(u.organization))
  {
    GetRole(u) == role
  }

  /** The user is an administrator exactly when its organization is primary. */
  lemma AdminIffPrimary(u: User)
    ensures HasRole(u, Some("admin")) <==> IsPrimary(u.organization)
    ensures HasRole(u, None) <==> !IsPrimary(u.organization)
  {
  }

  /** The truthy first and last name, in that order, joined by one space. */
  function FullName(u: User): (r: string)
    ensures Truthy(u.firstName) && Truthy(u.lastName) ==> r == u.firstName.value + " " + u.lastName.value
    ensures Truthy(u.firstName) && !Truthy(u.lastName) ==> r == u.firstName.value
    ensures !Truthy(u.firstName) && Truthy(u.lastName) ==> r == u.lastName.value
    ensures !Truthy(u.firstName) && !Truthy(u.lastName) ==> r == ""
  {
    Join(" ", PartIfTruthy(u.firstName) + PartIfTruthy(u.lastName))
  }

  /** The truthy last and first name, in that order, joined by a comma and a space. */
  function ToString(u: User): (r: string)
    ensures Truthy(u.lastName) && Truthy(u.firstName) ==> r == u.lastName.value + ", " + u.firstName.value
    ensures Truthy(u.lastName) && !Truthy(u.firstName) ==> r == u.lastName.value
    ensures !Truthy(u.lastName) && Truthy(u.firstName) ==> r == u.firstName.value
    ensures !Truthy(u.lastName) && !Truthy(u.firstName) ==> r == ""
  {
    Join(", ", PartIfTruthy(u.lastName) + PartIfTruthy(u.firstName))
  }

  /** A string property as it is serialised: its text, or `null`. */
  function JsonText(s: Option<string>): (r: Json) {
    if s.Some? then JStr(s.value) else JNull
  }

  /**
   * The serialised user: its string properties plus `name`, which is always
   * the full name. The organization and team properties are not part of
   * this projection.
   */
  function JsonSerialize(u: User): (r: map<string, Json>)
    ensures r.Keys == {"_id", "first_name", "last_name", "gender", "email", "name"}
    ensures r["name"] == JStr(FullName(u))
    ensures r["gender"] == JsonText(u.gender)
    ensures r["first_name"] == JsonText(u.firstName) && r["last_name"] == JsonText(u.lastName)
    ensures r["_id"] == JsonText(u.id) && r["email"] == JsonText(u.email)
  {
    map[
      "_id" := JsonText(u.id),
      "first_name" := JsonText(u.firstName),
      "last_name" := JsonText(u.lastName),
      "gender" := JsonText(u.gender),
      "email" := JsonText(u.email),
      "name" := JStr(FullName(u))
    ]
  }
}
