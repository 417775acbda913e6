/**
 * Who may do what: the administrator role, the per-user row filter, and the project
 * membership tests, together with the two ways the routes read a session.
 */
module Permissions {
  import opened Common
  import opened Domain

  /** `session?.user?.id` is truthy: there is a session and its user id is not empty. */
  predicate SignedIn(session: Option<Session>) {
    session.Some? && session.value.userId != ""
  }

  /** `isAdmin`. */
  predicate IsAdmin(session: Session) {
    session.role == "ADMIN"
  }

  /** `getUserFilter`: no owner restriction for an administrator, the caller's own id otherwise. */
  function GetUserFilter(session: Session): (r: Option<string>)
    ensures r.None? <==> IsAdmin(session)
    ensures r.Some? ==> r.value == session.userId
  {
    if IsAdmin(session) then None else Some(session.userId)
  }

  /** `members.some(m => m.userId === userId)`. */
  predicate IsMember(members: seq<ProjectMember>, userId: string) {
    exists i :: 0 <= i < |members| && members[i].userId == userId
  }

  /** Some member row gives `userId` the OWNER role. */
  predicate IsOwner(members: seq<ProjectMember>, userId: string) {
    exists i :: 0 <= i < |members| && members[i].userId == userId && members[i].role == OWNER
  }

  /** `canAccessProject`. */
  predicate CanAccessProject(session: Session, members: seq<ProjectMember>) {
    IsAdmin(session) || IsMember(members, session.userId)
  }

  /** `canManageProject`. */
  predicate CanManageProject(session: Session, members: seq<ProjectMember>) {
    IsAdmin(session) || IsOwner(members, session.userId)
  }

  /**
   * A non-administrator can access a project exactly when one of its member rows carries
   * their id, and can manage it exactly when that row (or another) makes them OWNER.
   */
  lemma {:induction false} NonAdminAccess(session: Session, members: seq<ProjectMember>)
    requires !IsAdmin(session)
    ensures CanAccessProject(session, members) <==> session.userId in MemberIds(members)
    ensures CanManageProject(session, members) <==> ProjectMember(session.userId, OWNER) in members
  {
    if CanAccessProject(session, members) {
      var i :| 0 <= i < |members| && members[i].userId == session.userId;
      assert members[i].userId in MemberIds(members);
    }
    if session.userId in MemberIds(members) {
      var i :| 0 <= i < |members| && members[i].userId == session.userId;
      assert IsMember(members, session.userId);
    }
    if ProjectMember(session.userId, OWNER) in members {
      var i :| 0 <= i < |members| && members[i] == ProjectMember(session.userId, OWNER);
      assert members[i].userId == session.userId && members[i].role == OWNER;
    }
  }

  function MemberIds(members: seq<ProjectMember>): (r: set<string>)
    ensures forall i :: 0 <= i < |members| ==> members[i].userId in r
  {
    set i | 0 <= i < |members| :: members[i].userId
  }

  /** Whoever may manage a project may also access it. */
  lemma ManageImpliesAccess(session: Session, members: seq<ProjectMember>)
    requires CanManageProject(session, members)
    ensures CanAccessProject(session, members)
  {
    if !IsAdmin(session) {
      var i :| 0 <= i < |members| && members[i].userId == session.userId && members[i].role == OWNER;
      assert members[i].userId == session.userId;
    }
  }

  /**
   * Both tests are monotone: a member list that keeps every row of another (in any order,
   * with more rows besides) grants at least the same access and management.
   */
  lemma {:induction false} PermissionsMonotone(session: Session, members: seq<ProjectMember>, more: seq<ProjectMember>)
    requires forall m :: m in members ==> m in more
    ensures CanAccessProject(session, members) ==> CanAccessProject(session, more)
    ensures CanManageProject(session, members) ==> CanManageProject(session, more)
  {
    if !IsAdmin(session) && IsMember(members, session.userId) {
      var i :| 0 <= i < |members| && members[i].userId == session.userId;
      assert members[i] in more;
      var j :| 0 <= j < |more| && more[j] == members[i];
      assert more[j].userId == session.userId;
    }
    if !IsAdmin(session) && IsOwner(members, session.userId) {
      var i :| 0 <= i < |members| && members[i].userId == session.userId && members[i].role == OWNER;
      assert members[i] in more;
      var j :| 0 <= j < |more| && more[j] == members[i];
      assert more[j].userId == session.userId && more[j].role == OWNER;
    }
  }
}
