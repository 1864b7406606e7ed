/** Role-based permissions. An organisation role and an event role each
    map to a fixed list of permissions; a check grants a permission only
    through the current user's membership in the organisation or event the
    caller names, and only when that organisation or event is the current
    one. */
module Auth {
  import opened JsRuntime

  datatype Permission =
    | ManageOrg | CreateEvent
    | ManageTeam | ManageFinances | ManageConfig | EditPlanning | DeleteTask
    | EditSpeakers | EditSponsors | EditAlliances | EditMarketing

  datatype OrgRole = Owner | Admin | Member

  datatype EventRole = Director | Coordinator | Viewer

  datatype User = User(id: string, name: string, email: string)

  datatype OrgMembership = OrgMembership(userId: string, role: OrgRole)

  datatype TeamMembership = TeamMembership(userId: string, role: EventRole)

  datatype Organization = Organization(id: string, members: Option<seq<OrgMembership>>)

  datatype Project = Project(id: string, teamMembers: Option<seq<TeamMembership>>)

  /** The organisation-level table. */
  function OrgPermissions(role: OrgRole): seq<Permission> {
    match role
    case Owner => [ManageOrg, CreateEvent]
    case Admin => [ManageOrg, CreateEvent]
    case Member => []
  }

  /** The event-level table. */
  function EventPermissions(role: EventRole): seq<Permission> {
    match role
    case Director =>
      [ManageTeam, ManageFinances, ManageConfig, EditPlanning, DeleteTask,
       EditSpeakers, EditSponsors, EditAlliances, EditMarketing]
    case Coordinator => [EditPlanning, EditSpeakers, EditSponsors, EditAlliances, EditMarketing]
    case Viewer => []
  }

  const MOCK_USERS: seq<User> := [
    User("u1", "Ana (Owner)", "ana@event.com"),
    User("u2", "Carlos (Admin/Director)", "carlos@event.com"),
    User("u3", "Luis (Member/Coordinator)", "luis@event.com")
  ]

  // ---------------------------------------------------------------------
  // Membership lookup: `members?.find(m => m.userId === user.id)`

  /** Position i holds the first entry of `s` that belongs to user `uid`. */
  predicate IsFirstOf<T>(s: seq<T>, userOf: T -> string, uid: string, i: int) {
    0 <= i < |s| && userOf(s[i]) == uid && forall j :: 0 <= j < i ==> userOf(s[j]) != uid
  }

  function FindFirst<T>(s: seq<T>, userOf: T -> string, uid: string): (r: Option<T>)
    ensures r.None? <==> forall i :: 0 <= i < |s| ==> userOf(s[i]) != uid
    ensures r.Some? ==> r.value in s && userOf(r.value) == uid
    decreases |s|
  {
    if s == [] then None
    else if userOf(s[0]) == uid then Some(s[0])
    else FindFirst(s[1..], userOf, uid)
  }

  /** `find` returns the entry at the first position that belongs to the user. */
  lemma {:induction false} FindFirstIsFirst<T>(s: seq<T>, userOf: T -> string, uid: string)
    requires FindFirst(s, userOf, uid).Some?
    ensures exists i :: IsFirstOf(s, userOf, uid, i) && s[i] == FindFirst(s, userOf, uid).value
    decreases |s|
  {
    if userOf(s[0]) == uid {
      assert IsFirstOf(s, userOf, uid, 0);
    } else {
      FindFirstIsFirst(s[1..], userOf, uid);
      var i :| IsFirstOf(s[1..], userOf, uid, i) && s[1..][i] == FindFirst(s[1..], userOf, uid).value;
      assert IsFirstOf(s, userOf, uid, i + 1);
    }
  }

  /** The first entry is unique, so "the" membership of a user is well defined. */
  lemma FirstIsUnique<T>(s: seq<T>, userOf: T -> string, uid: string, i: int, j: int)
    requires IsFirstOf(s, userOf, uid, i) && IsFirstOf(s, userOf, uid, j)
    ensures i == j
  {
  }

  function OrgMemberUser(m: OrgMembership): string {
    m.userId
  }

  function TeamMemberUser(m: TeamMembership): string {
    m.userId
  }

  /** The members list of an organisation, `[]` when absent. */
  function OrgMembers(o: Organization): seq<OrgMembership> {
    o.members.GetOr([])
  }

  function EventTeam(e: Project): seq<TeamMembership> {
    e.teamMembers.GetOr([])
  }

  /** Lines 47-52: the organisation path of the check. */
  predicate OrgGrants(user: User, org: Option<Organization>, p: Permission, orgId: Option<string>) {
    Filled(orgId) && org.Some? && org.value.id == orgId.value &&
    match FindFirst(OrgMembers(org.value), OrgMemberUser, user.id)
    case Some(m) => p in OrgPermissions(m.role)
    case None => false
  }

  /** Lines 55-60: the event path of the check. */
  predicate EventGrants(user: User, event: Option<Project>, p: Permission, eventId: Option<string>) {
    Filled(eventId) && event.Some? && event.value.id == eventId.value &&
    match FindFirst(EventTeam(event.value), TeamMemberUser, user.id)
    case Some(m) => p in EventPermissions(m.role)
    case None => false
  }

  /** `hasPermission(p, orgId, eventId)` evaluated in a provider whose state is
      (user, org, event). */
  function Permits(user: Option<User>, org: Option<Organization>, event: Option<Project>,
                   p: Permission, orgId: Option<string>, eventId: Option<string>): (r: bool)
    // no user: nothing is granted
    ensures user.None? ==> !r
    // no scope: nothing is granted, whatever the user's roles
    ensures !Filled(orgId) && !Filled(eventId) ==> !r
  {
    if user.None? then false
    else OrgGrants(user.value, org, p, orgId) || EventGrants(user.value, event, p, eventId)
  }

  /** The organisation path grants exactly when the user's first membership in
      the named, current organisation has a role whose table lists p. */
  lemma OrgGrantsIff(u: User, org: Option<Organization>, p: Permission, orgId: Option<string>)
    ensures OrgGrants(u, org, p, orgId) <==>
      Filled(orgId) && org.Some? && org.value.id == orgId.value &&
      exists i :: IsFirstOf(OrgMembers(org.value), OrgMemberUser, u.id, i) &&
                  p in OrgPermissions(OrgMembers(org.value)[i].role)
  {
    if org.Some? {
      var ms := OrgMembers(org.value);
      var f := FindFirst(ms, OrgMemberUser, u.id);
      if f.Some? {
        FindFirstIsFirst(ms, OrgMemberUser, u.id);
        var i :| IsFirstOf(ms, OrgMemberUser, u.id, i) && ms[i] == f.value;
        forall j | IsFirstOf(ms, OrgMemberUser, u.id, j)
          ensures ms[j] == f.value
        {
          FirstIsUnique(ms, OrgMemberUser, u.id, i, j);
        }
      }
    }
  }

  /** The event path grants exactly when the user's first membership in the
      named, current event has a role whose table lists p. */
  lemma EventGrantsIff(u: User, event: Option<Project>, p: Permission, eventId: Option<string>)
    ensures EventGrants(u, event, p, eventId) <==>
      Filled(eventId) && event.Some? && event.value.id == eventId.value &&
      exists i :: IsFirstOf(EventTeam(event.value), TeamMemberUser, u.id, i) &&
                  p in EventPermissions(EventTeam(event.value)[i].role)
  {
    if event.Some? {
      var ts := EventTeam(event.value);
      var f := FindFirst(ts, TeamMemberUser, u.id);
      if f.Some? {
        FindFirstIsFirst(ts, TeamMemberUser, u.id);
        var i :| IsFirstOf(ts, TeamMemberUser, u.id, i) && ts[i] == f.value;
        forall j | IsFirstOf(ts, TeamMemberUser, u.id, j)
          ensures ts[j] == f.value
        {
          FirstIsUnique(ts, TeamMemberUser, u.id, i, j);
        }
      }
    }
  }

  // ---------------------------------------------------------------------
  // Properties of the tables

  /** MEMBER and VIEWER grant nothing; OWNER and ADMIN grant the same. */
  lemma RoleTableShape()
    ensures OrgPermissions(Member) == [] && EventPermissions(Viewer) == []
    ensures OrgPermissions(Owner) == OrgPermissions(Admin)
  {
  }

  /** Everything a coordinator may do a director may do; team, finance,
      configuration and task deletion are the director's alone. */
  lemma CoordinatorBelowDirector()
    ensures forall p :: p in EventPermissions(Coordinator) ==> p in EventPermissions(Director)
    ensures forall p :: p in [ManageTeam, ManageFinances, ManageConfig, DeleteTask] ==>
              p in EventPermissions(Director) && p !in EventPermissions(Coordinator)
  {
  }

  /** An event permission is granted only on the event path: the organisation
      table holds only `manage:org` and `create:event`. */
  lemma OrgPathGrantsOnlyOrgPermissions(user: Option<User>, org: Option<Organization>,
                                        event: Option<Project>, p: Permission, orgId: Option<string>)
    requires Permits(user, org, event, p, orgId, None)
    ensures p == ManageOrg || p == CreateEvent
  {
    var u := user.value;
    OrgGrantsIff(u, org, p, orgId);
    var ms := OrgMembers(org.value);
    var i :| IsFirstOf(ms, OrgMemberUser, u.id, i) && p in OrgPermissions(ms[i].role);
  }

  /** A user whose first membership in the current event is VIEWER, and who is
      not reached through an organisation, is refused every permission. */
  lemma ViewerIsRefused(u: User, event: Project, p: Permission, eventId: string)
    requires FindFirst(EventTeam(event), TeamMemberUser, u.id) == Some(TeamMembership(u.id, Viewer))
    ensures !Permits(Some(u), None, Some(event), p, None, Some(eventId))
  {
  }

  /** A later entry for the same user never overrides the first: the role
      of the first entry decides. */
  lemma FirstMembershipDecides(u: User, event: Project, role: EventRole, rest: seq<TeamMembership>, p: Permission)
    requires event.teamMembers == Some([TeamMembership(u.id, role)] + rest) && event.id != ""
    ensures Permits(Some(u), None, Some(event), p, None, Some(event.id)) <==> p in EventPermissions(role)
  {
    var ts := EventTeam(event);
    assert IsFirstOf(ts, TeamMemberUser, u.id, 0);
    EventGrantsIff(u, Some(event), p, Some(event.id));
    forall i | IsFirstOf(ts, TeamMemberUser, u.id, i)
      ensures i == 0
    {
      FirstIsUnique(ts, TeamMemberUser, u.id, 0, i);
    }
  }

  // ---------------------------------------------------------------------
  // The provider's state

  class AuthProvider {
    var currentUser: Option<User>
    var currentOrg: Option<Organization>
    var currentEvent: Option<Project>

    /** Starts signed in as the first mock user, with no organisation or event. */
    constructor ()
      ensures currentUser == Some(MOCK_USERS[0]) && currentOrg.None? && currentEvent.None?
    {
      currentUser := Some(MOCK_USERS[0]);
      currentOrg := None;
      currentEvent := None;
    }

    method Login(user: User)
      modifies this
      ensures currentUser == Some(user)
      ensures currentOrg == old(currentOrg) && currentEvent == old(currentEvent)
    {
      currentUser := Some(user);
    }

    /** After a logout every check is refused. */
    method Logout()
      modifies this
      ensures currentUser.None?
      ensures currentOrg == old(currentOrg) && currentEvent == old(currentEvent)
      ensures forall p, o, e :: !HasPermission(p, o, e)
    {
      currentUser := None;
    }

    method SetCurrentOrg(org: Option<Organization>)
      modifies this
      ensures currentOrg == org
      ensures currentUser == old(currentUser) && currentEvent == old(currentEvent)
    {
      currentOrg := org;
    }

    method SetCurrentEvent(event: Option<Project>)
      modifies this
      ensures currentEvent == event
      ensures currentUser == old(currentUser) && currentOrg == old(currentOrg)
    {
      currentEvent := event;
    }

    function HasPermission(p: Permission, orgId: Option<string>, eventId: Option<string>): bool
      reads this
    {
      Permits(currentUser, currentOrg, currentEvent, p, orgId, eventId)
    }

    /** The call every view makes, `hasPermission(p)` with no scope, is refused
        in every state of the provider. */
    lemma UnscopedCheckRefused(p: Permission)
      ensures !HasPermission(p, None, None)
    {
    }
  }
}
