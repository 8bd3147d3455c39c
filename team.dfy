/**
 * Teams: the parent rule, the ordered member list a team edits in place,
 * the stored and serialised projections of that list, and the access
 * decision a team makes for a requesting user.
 */
module Teams {
  import opened Wrappers
  import opened Php
  import opened Users

  /**
   * A team member: a snapshot of the user that was added, with the
   * membership annotations the team keeps on that copy.
   */
  datatype Member = Member(user: User, role: Option<string>, leader: Option<bool>, contact: Option<bool>) {
    function Id(): (r: Option<string>) { user.id }
    /** A member without a last name is a placeholder, hidden from listings. */
    predicate Listed() { user.lastName.Some? }
  }

  /** What the constructor is given as `$parent`. */
  datatype Parent = NoParent | OrganizationParent(organization: Organization) | ProjectParent(project: Project)

  /** The pair of parent properties of a team. */
  datatype Owner = Owner(organization: Option<Organization>, project: Option<Project>)

  /** A member as it is saved: exactly these four properties. */
  datatype StoredMember = StoredMember(id: Option<string>, role: Option<string>, leader: bool, contact: bool)

  /** A property value of the serialised team object. */
  datatype TeamField =
    | FNull
    | FString(s: string)
    | FOrganization(organization: Organization)
    | FProject(project: Project)
    | FMembers(members: seq<Member>)

  /**
   * The constructor's choice of parent: when neither parent property has
   * been assigned yet, an organization parent sets `organization`, a project
   * parent sets `project` and anything else sets neither.
   */
  function ResolveOwner(loaded: Owner, parent: Parent): (r: Owner)
    ensures loaded.organization.Some? || loaded.project.Some? ==> r == loaded
    ensures loaded == Owner(None, None) && parent.OrganizationParent? ==> r == Owner(Some(parent.organization), None)
    ensures loaded == Owner(None, None) && parent.ProjectParent? ==> r == Owner(None, Some(parent.project))
    ensures loaded == Owner(None, None) && parent.NoParent? ==> r == Owner(None, None)
    ensures r.organization.Some? && r.project.Some? ==> r == loaded
  {
    if loaded.organization.None? && loaded.project.None? then
      match parent
      case OrganizationParent(o) => Owner(Some(o), None)
      case ProjectParent(p) => Owner(None, Some(p))
      case NoParent => loaded
    else loaded
  }

  /** The listed (non-placeholder) members of `s`, in their order in `s`. */
  function ListedMembers(s: seq<Member>): (r: seq<Member>) {
    if |s| == 0 then []
    else ListedMembers(s[..|s| - 1]) + (if s[|s| - 1].Listed() then [s[|s| - 1]] else [])
  }

  /** The first member of `s` whose id is `id` (compared strictly). */
  function FirstWithId(s: seq<Member>, id: Option<string>): (r: Option<Member>) {
    if |s| == 0 then None
    else if s[0].Id() == id then Some(s[0])
    else FirstWithId(s[1..], id)
  }

  /** The member list after `addUser(user)` on `s`. */
  function Added(s: seq<Member>, user: Member): (r: seq<Member>) {
    if FirstWithId(ListedMembers(s), user.Id()).Some? then s else s + [user]
  }

  /** The member list after `removeUser` of `id` on `s`: its first entry with that id is dropped. */
  function Removed(s: seq<Member>, id: Option<string>): (r: seq<Member>) {
    if |s| == 0 then []
    else if s[0].Id() == id then s[1..]
    else [s[0]] + Removed(s[1..], id)
  }

  /** The saved record of one member, with `null`/`false` defaults. */
  function Store(m: Member): (r: StoredMember)
    ensures r.id == m.Id() && r.role == m.role
    ensures r.leader <==> m.leader == Some(true)
    ensures r.contact <==> m.contact == Some(true)
  {
    StoredMember(m.Id(), m.role, m.leader.GetOr(false), m.contact.GetOr(false))
  }

  lemma {:induction false} ListedAppend(a: seq<Member>, b: seq<Member>)
    ensures ListedMembers(a + b) == ListedMembers(a) + ListedMembers(b)
    decreases |b|
  {
    if |b| == 0 {
      assert a + b == a;
    } else {
      var c, x := b[..|b| - 1], b[|b| - 1];
      assert (a + b)[..|a + b| - 1] == a + c;
      assert b[..|b| - 1] == c;
      ListedAppend(a, c);
    }
  }

  /** The listing keeps exactly the listed members, in their original order. */
  lemma {:induction false} ListedMembersSpec(s: seq<Member>)
    ensures |ListedMembers(s)| <= |s|
    ensures forall m :: m in ListedMembers(s) <==> m in s && m.Listed()
    ensures (forall i :: 0 <= i < |s| ==> s[i].Listed()) ==> ListedMembers(s) == s
    decreases |s|
  {
    if |s| > 0 {
      var init := s[..|s| - 1];
      ListedMembersSpec(init);
      assert s == init + [s[|s| - 1]];
      assert forall m :: m in s <==> m in init || m == s[|s| - 1];
    }
  }

  lemma {:induction false} FirstWithIdAppend(a: seq<Member>, b: seq<Member>, id: Option<string>)
    ensures FirstWithId(a + b, id) == if FirstWithId(a, id).Some? then FirstWithId(a, id) else FirstWithId(b, id)
    decreases |a|
  {
    if |a| > 0 {
      assert (a + b)[0] == a[0];
      assert (a + b)[1..] == a[1..] + b;
      FirstWithIdAppend(a[1..], b, id);
    } else {
      assert a + b == b;
    }
  }

  /** The first member with a given id: present and matching, with no earlier match. */
  lemma {:induction false} FirstWithIdSpec(s: seq<Member>, id: Option<string>)
    ensures FirstWithId(s, id).None? <==> forall m :: m in s ==> m.Id() != id
    ensures FirstWithId(s, id).Some? ==>
      exists k :: 0 <= k < |s| && s[k] == FirstWithId(s, id).value && s[k].Id() == id &&
        forall j :: 0 <= j < k ==> s[j].Id() != id
    decreases |s|
  {
    if |s| > 0 {
      FirstWithIdSpec(s[1..], id);
      assert forall m :: m in s <==> m == s[0] || m in s[1..];
      if s[0].Id() != id && FirstWithId(s[1..], id).Some? {
        var k :| 0 <= k < |s[1..]| && s[1..][k] == FirstWithId(s[1..], id).value && s[1..][k].Id() == id &&
          forall j :: 0 <= j < k ==> s[1..][j].Id() != id;
        assert s[k + 1] == FirstWithId(s, id).value;
        assert forall j :: 0 <= j < k + 1 ==> s[j].Id() != id by {
          forall j | 0 <= j < k + 1 ensures s[j].Id() != id {
            if j > 0 { assert s[j] == s[1..][j - 1]; }
          }
        }
      } else if s[0].Id() == id {
        assert s[0] == FirstWithId(s, id).value;
      }
    }
  }

  /** A member `getUser(id)` finds is a listed member of the team with that id, and it finds one when one exists. */
  lemma FindListedSpec(s: seq<Member>, id: Option<string>)
    ensures FirstWithId(ListedMembers(s), id).Some? ==>
      var m := FirstWithId(ListedMembers(s), id).value; m in s && m.Listed() && m.Id() == id
    ensures FirstWithId(ListedMembers(s), id).None? <==> forall m :: m in s && m.Listed() ==> m.Id() != id
  {
    ListedMembersSpec(s);
    FirstWithIdSpec(ListedMembers(s), id);
  }

  /** `addUser` either leaves the list alone or appends exactly the given user. */
  lemma AddedSpec(s: seq<Member>, user: Member)
    ensures Added(s, user) == s <==> exists m :: m in s && m.Listed() && m.Id() == user.Id()
    ensures Added(s, user) != s ==> Added(s, user) == s + [user]
  {
    FindListedSpec(s, user.Id());
    if FirstWithId(ListedMembers(s), user.Id()).Some? {
      var m := FirstWithId(ListedMembers(s), user.Id()).value;
      assert m in s && m.Listed() && m.Id() == user.Id();
    } else {
      assert |s + [user]| != |s|;
    }
  }

  /** Adding a listed user twice adds it once. */
  lemma AddListedTwice(s: seq<Member>, user: Member)
    requires user.Listed()
    ensures Added(Added(s, user), user) == Added(s, user)
  {
    if FirstWithId(ListedMembers(s), user.Id()).None? {
      ListedAppend(s, [user]);
      assert ListedMembers([user]) == ListedMembers([][..0]) + [user];
      FirstWithIdAppend(ListedMembers(s), [user], user.Id());
    }
  }

  /** Adding a placeholder twice appends two copies: the duplicate check cannot see placeholders. */
  lemma AddPlaceholderTwice(s: seq<Member>, user: Member)
    requires !user.Listed()
    requires FirstWithId(ListedMembers(s), user.Id()).None?
    ensures Added(Added(s, user), user) == s + [user, user]
  {
    ListedAppend(s, [user]);
    assert ListedMembers([user]) == ListedMembers([][..0]);
    assert ListedMembers(s + [user]) == ListedMembers(s);
    assert s + [user] + [user] == s + [user, user];
  }

  /** `removeUser` of an id that no entry has leaves the list unchanged. */
  lemma {:induction false} RemovedAbsent(s: seq<Member>, id: Option<string>)
    requires forall m :: m in s ==> m.Id() != id
    ensures Removed(s, id) == s
    decreases |s|
  {
    if |s| > 0 {
      assert s[0] in s;
      assert forall m :: m in s[1..] ==> m in s;
      RemovedAbsent(s[1..], id);
      assert [s[0]] + s[1..] == s;
    }
  }

  /** `removeUser` drops the entry at the first index `k` whose id matches, and nothing else. */
  lemma {:induction false} RemovedAt(s: seq<Member>, id: Option<string>, k: nat)
    requires k < |s| && s[k].Id() == id
    requires forall j :: 0 <= j < k ==> s[j].Id() != id
    ensures Removed(s, id) == s[..k] + s[k + 1..]
    decreases k
  {
    if k > 0 {
      assert s[0].Id() != id;
      RemovedAt(s[1..], id, k - 1);
      assert s[1..][..k - 1] == s[1..k];
      assert s[1..][k..] == s[k + 1..];
      assert [s[0]] + s[1..k] == s[..k];
    }
  }

  /** Removing a freshly added user's id restores the list, when no entry had that id before. */
  lemma RemoveAfterAdd(s: seq<Member>, user: Member)
    requires forall m :: m in s ==> m.Id() != user.Id()
    ensures Removed(Added(s, user), user.Id()) == s
  {
    FindListedSpec(s, user.Id());
    var t := s + [user];
    assert forall j :: 0 <= j < |s| ==> t[j].Id() != user.Id() by {
      forall j | 0 <= j < |s| ensures t[j].Id() != user.Id() { assert t[j] == s[j] && s[j] in s; }
    }
    RemovedAt(t, user.Id(), |s|);
    assert t[..|s|] == s && t[|s| + 1..] == [];
  }

  /**
   * An id held only by a placeholder is invisible to `addUser` but not to
   * `removeUser`: adding a listed user with that id and then removing the id
   * deletes the placeholder and keeps the new member.
   */
  lemma RemoveAfterAddHitsPlaceholder(placeholder: Member, user: Member)
    requires !placeholder.Listed() && user.Listed() && placeholder.Id() == user.Id()
    ensures Added([placeholder], user) == [placeholder, user]
    ensures Removed(Added([placeholder], user), user.Id()) == [user]
  {
    assert ListedMembers([placeholder]) == ListedMembers([placeholder][..0]);
    assert [placeholder] + [user] == [placeholder, user];
    assert [placeholder, user][1..] == [user];
  }

  /** Adding and then listing: the listing gains the user only if it is listed and was not found. */
  lemma ListedAfterAdd(s: seq<Member>, user: Member)
    ensures ListedMembers(Added(s, user)) ==
      if FirstWithId(ListedMembers(s), user.Id()).None? && user.Listed()
      then ListedMembers(s) + [user] else ListedMembers(s)
  {
  }

  /** A team entity. */
  class Team {
    var name: Option<string>
    var organization: Option<Organization>
    var project: Option<Project>
    /** All members, placeholders included, in insertion order. */
    var users: seq<Member>

    /**
     * `new Team($parent)`. `loaded` holds the parent properties the
     * document mapper has already assigned before the constructor body
     * runs (`Owner(None, None)` for a team created in code). It covers only
     * that parent pair: a team the mapper fills in would also keep its own
     * name and members, which this constructor does not model.
     */
    constructor (parent: Parent, loaded: Owner)
      ensures Owner(organization, project) == ResolveOwner(loaded, parent)
      ensures name == None && users == []
    {
      var owner := ResolveOwner(loaded, parent);
      name := None;
      organization := owner.organization;
      project := owner.project;
      users := [];
    }

    /** All listed members, in order. */
    method GetUsers() returns (r: seq<Member>)
      ensures r == ListedMembers(users)
      ensures forall m :: m in r <==> m in users && m.Listed()
    {
      r := [];
      var i := 0;
      while i < |users|
        invariant 0 <= i <= |users|
        invariant r == ListedMembers(users[..i])
      {
        assert users[..i + 1][..i] == users[..i];
        if users[i].Listed() {
          r := r + [users[i]];
        }
        i := i + 1;
      }
      assert users[..i] == users;
      ListedMembersSpec(users);
    }

    /** The first listed member with id `id`, if any. */
    method GetUser(id: Option<string>) returns (r: Option<Member>)
      ensures r == FirstWithId(ListedMembers(users), id)
      ensures r.Some? ==> r.value in users && r.value.Listed() && r.value.Id() == id
      ensures r.None? <==> forall m :: m in users && m.Listed() ==> m.Id() != id
    {
      var members := GetUsers();
      var i := 0;
      while i < |members|
        invariant 0 <= i <= |members|
        invariant FirstWithId(members, id) == FirstWithId(members[i..], id)
      {
        if members[i].Id() == id {
          r := Some(members[i]);
          FindListedSpec(users, id);
          return;
        }
        assert members[i..][1..] == members[i + 1..];
        i := i + 1;
      }
      r := None;
      FindListedSpec(users, id);
    }

    /** Add a member unless a listed member with the same id exists; returns the member in the team. */
    method AddUser(user: Member) returns (member: Member)
      modifies this`users
      ensures users == Added(old(users), user)
      ensures member == FirstWithId(ListedMembers(old(users)), user.Id()).GetOr(user)
    {
      var found := GetUser(user.Id());
      if found.None? {
        member := user;
        users := users + [member];
      } else {
        member := found.value;
      }
    }

    /** Remove the first entry with the user's id, placeholders included. */
    method RemoveUser(user: Member)
      modifies this`users
      ensures users == Removed(old(users), user.Id())
    {
      var i := 0;
      while i < |users| && users[i].Id() != user.Id()
        invariant 0 <= i <= |users|
        invariant forall j :: 0 <= j < i ==> users[j].Id() != user.Id()
      {
        i := i + 1;
      }
      if i < |users| {
        RemovedAt(users, user.Id(), i);
        users := users[..i] + users[i + 1..];
      } else {
        RemovedAbsent(users, user.Id());
      }
    }

    /** The members as they are saved: one record per entry, in order. */
    method ToData() returns (stored: seq<StoredMember>)
      ensures |stored| == |users|
      ensures forall i :: 0 <= i < |users| ==> stored[i] == Store(users[i])
    {
      stored := [];
      for i := 0 to |users|
        invariant |stored| == i
        invariant forall j :: 0 <= j < i ==> stored[j] == Store(users[j])
      {
        stored := stored + [Store(users[i])];
      }
    }

    /**
     * The serialised team: `null` parents are left out and so is every
     * placeholder member.
     */
    method JsonSerialize() returns (obj: map<string, TeamField>)
      ensures obj.Keys <= {"name", "organization", "project", "users"}
      ensures "name" in obj && obj["name"] == (if name.Some? then FString(name.value) else FNull)
      ensures "organization" in obj <==> organization.Some?
      ensures organization.Some? ==> obj["organization"] == FOrganization(organization.value)
      ensures "project" in obj <==> project.Some?
      ensures project.Some? ==> obj["project"] == FProject(project.value)
      ensures "users" in obj && obj["users"] == FMembers(ListedMembers(users))
    {
      obj := map[
        "name" := if name.Some? then FString(name.value) else FNull,
        "organization" := if organization.Some? then FOrganization(organization.value) else FNull,
        "project" := if project.Some? then FProject(project.value) else FNull,
        "users" := FMembers(users)
      ];
      if obj["organization"] == FNull { obj := obj - {"organization"}; }
      if obj["project"] == FNull { obj := obj - {"project"}; }
      var members := GetUsers();
      obj := obj["users" := FMembers(members)];
    }

    /** `(string)$this->name`. */
    function ToString(): (r: string)
      reads this
      ensures name.Some? ==> r == name.value
      ensures name.None? ==> r == ""
    {
      name.GetOr("")
    }

    /**
     * The access string for `user`: `''` without a user; `'rw'` for an
     * administrator or a user whose organization id loosely equals the
     * team's; otherwise `'r'` on a primary organization's team and `''`
     * on any other. A team without an organization reads as `null` ids
     * and types. The scope is not consulted.
     */
    function DetermineAccess(user: Option<User>, scope: Option<string>): (r: string)
      reads this
      ensures r == "" || r == "r" || r == "rw"
      ensures user.None? ==> r == ""
      ensures r == "rw" <==> (user.Some? &&
        (HasRole(user.value, Some("admin")) || LooseEquals(OrganizationId(organization), OrganizationId(user.value.organization))))
      ensures r == "r" <==> user.Some? && r != "rw" && IsPrimary(organization)
    {
      if user.None? then ""
      else if HasRole(user.value, Some("admin")) || LooseEquals(OrganizationId(organization), OrganizationId(user.value.organization)) then "rw"
      else if OrganizationKind(organization) == Some("primary") then "r"
      else ""
    }
  }

  /**
   * `User::mayAccess`: the access string contains `r`. It lives here rather
   * than in `Users` because it consults a team, and `Users` cannot import `Teams`.
   */
  function MayAccess(user: User, team: Team, scope: Option<string>): (r: bool)
    reads team
    ensures r <==> team.DetermineAccess(Some(user), scope) in {"r", "rw"}
  {
    'r' in team.DetermineAccess(Some(user), scope)
  }

  /** `User::mayModify`: the access string contains `w` (placed here for the same reason). */
  function MayModify(user: User, team: Team, scope: Option<string>): (r: bool)
    reads team
    ensures r <==> team.DetermineAccess(Some(user), scope) == "rw"
  {
    'w' in team.DetermineAccess(Some(user), scope)
  }

  /** The two permission queries read the three outcomes as none, read, and read-write. */
  lemma PermissionsFromAccess(user: User, team: Team, scope: Option<string>)
    ensures MayAccess(user, team, scope) <==> team.DetermineAccess(Some(user), scope) != ""
    ensures MayModify(user, team, scope) <==> team.DetermineAccess(Some(user), scope) == "rw"
    ensures MayModify(user, team, scope) ==> MayAccess(user, team, scope)
  {
  }

  /** An administrator, or a member of the team's own organization, may modify the team whatever the scope. */
  lemma AdminOrSameOrganizationMayModify(user: User, team: Team, scope: Option<string>)
    requires IsPrimary(user.organization) ||
      (team.organization.Some? && user.organization.Some? && team.organization.value.id == user.organization.value.id)
    ensures MayModify(user, team, scope) && MayAccess(user, team, scope)
  {
  }

  /** A non-administrator from another organization may read a primary team but not modify it. */
  lemma OutsiderOnPrimaryTeam(user: User, team: Team, scope: Option<string>)
    requires !IsPrimary(user.organization) && IsPrimary(team.organization)
    requires !LooseEquals(OrganizationId(team.organization), OrganizationId(user.organization))
    ensures team.DetermineAccess(Some(user), scope) == "r"
    ensures MayAccess(user, team, scope) && !MayModify(user, team, scope)
  {
  }

  /** A non-administrator from another organization gets no access to a non-primary team. */
  lemma OutsiderOnOtherTeam(user: User, team: Team, scope: Option<string>)
    requires !IsPrimary(user.organization) && !IsPrimary(team.organization)
    requires !LooseEquals(OrganizationId(team.organization), OrganizationId(user.organization))
    ensures team.DetermineAccess(Some(user), scope) == ""
    ensures !MayAccess(user, team, scope) && !MayModify(user, team, scope)
  {
  }

  /**
   * Loose comparison of two `null` ids: a team without an organization
   * grants read-write to any user whose organization id reads as `null`
   * or `""`, whatever that organization's type, and to a user without an
   * organization.
   */
  lemma NullIdsGrantReadWrite(user: User, team: Team, scope: Option<string>)
    requires team.organization.None?
    requires LooseEquals(None, OrganizationId(user.organization))
    ensures team.DetermineAccess(Some(user), scope) == "rw"
    ensures MayModify(user, team, scope)
  {
  }
}
