/**
 * The session binder: turning a gateway session payload (or a decoded mock)
 * into a Session with a bound User and Organization, and the process-wide
 * current session.
 */
module Sessions {
  import opened Wrappers
  import opened Php
  import opened Users

  /** A bound session; `date` is the creation time as text. */
  datatype Session = Session(id: Option<string>, date: string, user: User)

  /** `$organization->setValues($values)` on a fresh Organization. */
  function OrganizationFromValues(values: map<string, Json>): (r: Organization)
    ensures r.id == StringAt(values, "_id") && r.kind == StringAt(values, "type")
  {
    Organization(StringAt(values, "_id"), StringAt(values, "type"))
  }

  /** `$user->setValues($values)` on a fresh User, before its organization is attached. */
  function UserFromValues(values: map<string, Json>): (r: User)
    ensures r.organization == None
    ensures r.id == StringAt(values, "_id") && r.email == StringAt(values, "email")
    ensures r.firstName == StringAt(values, "first_name") && r.lastName == StringAt(values, "last_name")
    ensures r.gender == StringAt(values, "gender") && r.password == StringAt(values, "password")
  {
    User(
      StringAt(values, "_id"),
      StringAt(values, "first_name"),
      StringAt(values, "last_name"),
      StringAt(values, "gender"),
      StringAt(values, "email"),
      StringAt(values, "password"),
      None)
  }

  /**
   * The user bound from a user payload: the organization is built from the
   * nested `organization` entry, which is detached, and the user from the
   * remaining entries.
   */
  function BindUser(payload: map<string, Json>): (r: User)
    ensures r.organization == Some(OrganizationFromValues(ObjectAt(payload, "organization")))
    ensures r.id == StringAt(payload, "_id") && r.email == StringAt(payload, "email")
    ensures r.firstName == StringAt(payload, "first_name") && r.lastName == StringAt(payload, "last_name")
    ensures r.gender == StringAt(payload, "gender") && r.password == StringAt(payload, "password")
  {
    var organization := OrganizationFromValues(ObjectAt(payload, "organization"));
    UserFromValues(payload - {"organization"}).(organization := Some(organization))
  }

  /** The guest user of a session without a party: `null` id, organization with a `null` id. */
  function AnonymousUser(): (r: User)
    ensures r.id == None && r.organization == Some(Organization(None, None))
    ensures GetRole(r) == None
  {
    User(None, None, None, None, None, None, Some(Organization(None, None)))
  }

  /** The user a gateway session response binds: from its `user` entry, or the guest. */
  function SessionUser(response: map<string, Json>): (r: User)
    ensures IsSet(response, "user") ==> r == BindUser(ObjectAt(response, "user"))
    ensures !IsSet(response, "user") ==> r == AnonymousUser()
    ensures r.organization.Some?
  {
    if IsSet(response, "user") then BindUser(ObjectAt(response, "user")) else AnonymousUser()
  }

  /** Replacing the payload's `organization` entry changes the bound organization and nothing else. */
  lemma BindUserOrganizationEntry(payload: map<string, Json>, organization: map<string, Json>)
    ensures BindUser(payload["organization" := JObj(organization)]) ==
      BindUser(payload).(organization := Some(OrganizationFromValues(organization)))
  {
  }

  /** Without a user object the mock binds the same guest user as a gateway session without a party. */
  lemma MockWithoutUserIsGuest(values: map<string, Json>, now: string)
    requires !("user" in values && values["user"].JObj?)
    ensures MockSession(values, now).user == AnonymousUser()
  {
  }

  /** A guest session's user is never an administrator, and has no identity. */
  lemma GuestIsNotAdmin(response: map<string, Json>)
    requires !IsSet(response, "user")
    ensures !HasRole(SessionUser(response), Some("admin"))
    ensures SessionUser(response).id == None && OrganizationId(SessionUser(response).organization) == None
  {
  }

  /** The session `createMock` builds from decoded values; `now` is the clock, used when no date is given. */
  function MockSession(values: map<string, Json>, now: string): (r: Session)
    ensures r.id == StringAt(values, "_id")
    ensures r.user == BindUser(ObjectAt(values, "user"))
    ensures r.date == StringAt(ObjectAt(values, "date"), "date").GetOr(now)
  {
    Session(StringAt(values, "_id"), StringAt(ObjectAt(values, "date"), "date").GetOr(now), BindUser(ObjectAt(values, "user")))
  }

  /** The process-wide current session (`Session::$session`). */
  class SessionBinder {
    var current: Option<Session>

    constructor ()
      ensures current == None
    {
      current := None;
    }

    /**
     * `Session::request($id)`, given the gateway's answer for that id
     * (`None` when it found nothing) and the clock reading `now`.
     */
    method Request(id: string, response: Option<map<string, Json>>, now: string) returns (s: Option<Session>)
      modifies this
      ensures response.None? ==> s == None && current == old(current)
      ensures response.Some? ==> s.Some? && current == s
      ensures response.Some? ==> s.value.id == Some(id) && s.value.date == now
      ensures response.Some? ==> s.value.user == SessionUser(response.value)
    {
      if response.None? {
        return None;
      }
      var values := response.value;
      var user: User;
      if IsSet(values, "user") {
        var payload := ObjectAt(values, "user");
        var organization := OrganizationFromValues(ObjectAt(payload, "organization"));
        payload := payload - {"organization"};
        user := UserFromValues(payload);
        user := user.(organization := Some(organization));
      } else {
        user := User(None, None, None, None, None, None, None);
        user := user.(organization := Some(Organization(None, None)));
      }
      var session := Session(Some(id), now, user);
      current := Some(session);
      s := Some(session);
    }

    /** `Session::createMock`, given the already-decoded values and the clock reading `now`. */
    method CreateMock(values: map<string, Json>, now: string) returns (s: Session)
      modifies this
      ensures s == MockSession(values, now)
      ensures current == Some(s)
    {
      var id := StringAt(values, "_id");
      var date := StringAt(ObjectAt(values, "date"), "date").GetOr(now);
      var payload := ObjectAt(values, "user");
      var organization := OrganizationFromValues(ObjectAt(payload, "organization"));
      payload := payload - {"organization"};
      var user := UserFromValues(payload);
      user := user.(organization := Some(organization));
      s := Session(id, date, user);
      current := Some(s);
    }

    /** `Session::getCurrent`: the current session, or a warning and nothing. */
    method GetCurrent() returns (s: Option<Session>, warning: bool)
      ensures s == current
      ensures warning <==> current.None?
    {
      if current.Some? {
        s, warning := current, false;
      } else {
        s, warning := None, true;
      }
    }
  }
}
